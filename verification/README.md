# Verified model of ChatRoom

ChatRoom is a chat server and client with its own reactor.  Text lines and raw file frames share one
TLS byte stream in both directions; files are resumable, and permissions are cached per session.
This project models that core in Dafny and proves it correct.

The parts, from the wire upwards:

- `Text`, `Percent`, `Units`, `FileLines`, `Offers`, `MessageLines`: the line protocol, printed and read back.
- `Wire`, `Deliveries`, `Stream`, `Turns`, `Connection`, `Partition`: the server's send path.  A connection mixes
  chat texts with the frames of file deliveries, through partial writes and re-entrant completions.
  `Stream.Inv` is its invariant: what is written, buffered and unsent is a concatenation of whole texts
  and whole frames; texts keep their order; completions fire only for what is on the wire; each delivery's
  share of the stream continues from its start offset to the end of the file.  `Turns.Ok` adds that no
  delivery is forgotten: each one that is not over has a completion, a waiting text or a frame that moves
  it on, or is just making its move.
- `ClientDemux`, `ClientDisk`, `Sessions`, `Refusals`: the receiving client, its disk, and its life over many
  connections.
- `ClientEffects`: what each line does to the client, beyond what every line keeps.
- `Play`: the client reading byte by byte while its user acts.
- `Download`, `Identity`, `Quiet`, `Resuming`: sender and receiver put together, as safety and as success, across
  connections.
- `Honesty`: from send completions to the delivered rows of the database.
- `ServerDemux`, `UploadStore`, `Uploads`, `UploadEffects`, `Resent`: the upload direction, with any number of connections.
- `PolicyCache`, `Friends`, `Groups`, `Verdicts`: permission caches, the relations behind them, and what each command
  does to who may write to whom.
- `EventLoop`, `ThreadPool`, `CacheWriter`, `OutputQueue`, `Buffer`: the concurrency kernels and queues.

Conventions.  A `std::string` is a sequence of characters, one per byte.  What the TLS layer answers is
a sequence nothing is known about.  Digests are an arbitrary function: no result relies on their
strength.  Stored files and a client's source files do not change.  Local disk, SQLite and
`open` calls succeed; a database answer that decides a command is a parameter.  Concurrent code is a
step system whose steps are its critical sections.  A connection's run is followed up to its first
refused frame, because a refused frame leaves raw payload in the line stream (`Refusals` says what that
can do); the disk and every later connection are followed all the same.

Results that are not simply "it works":

- A line longer than 8192 bytes goes through when it arrives in one piece and closes the connection
  when it is cut; `ServerDemux.IndependenceCondition` gives the exact condition.
- A functor that the loop's own thread queues outside `loop()` does not wake the next poll;
  `EventLoop.StartCondition` and `RestartCondition` give the exact condition, `EventLoop.UnsafeStart` the run.
- An upload that is sent again under a token that is already recorded (its FILE_UPLOAD_OK was lost)
  ends by removing the stored file of the recorded transfer; `Resent.ResentUploadLost` builds the run,
  `Resent.RecordedLost` says exactly when such a file is lost.
- ENTER_PRIVATE and ENTER_GROUP load the generation after their queries; `PolicyCache.LateLoad` says when
  that is right, `PolicyCache.StaleMeansMoved` what a stale cache implies, `PolicyCache.LateEntryStale` and
  `PolicyCache.LatePrivateStale` are runs with one.
- The payload of a refused frame is obeyed as text; `Refusals.RefusedPayloadSpoils` shows it spoiling a
  .part file, `Refusals.PrefixCondition` gives the exact condition.
- A TLS read that waits for the write event loses it when a frame ends with nothing left to send, or when
  a write wants to read: `Connection.TcpConnection.CompleteFrame` and `FlushTlsOutput`.
- The single byte "-" is read back as an empty text; everything else survives the round trip.
- The accept handler compares the database error with an English text while the database layer
  reports a Chinese one, so a missing request is reported as a database error: `Friends.NeverNoRequest`.

## Model

| member | source | states |
|---|---|---|
| `Quiet.EveryFileArrives` | ChatRoom/src/file_transfer_service.cpp:45-110 | Once a connected peer's connection has nothing left to do and what it wrote has arrived, in any pieces and with any acts of the user in between, inside lines and payloads too, every delivery that was not cancelled (and not complete before item `from`) is a file on the client equal to the stored one, with its receipt sent and its callback called once. Each file may be asked for at any point before its delivery begins; deliveries may be revoked, repeated or cut off; required is that no text concerns a transfer between its request and the last item of its delivery, and that deliveries of one transfer do not overlap |
| `Quiet.FromRestart` | ChatRoom/src/client/client_file_transfer.cpp:321-505 | From a fresh client with any true disk: when the user has logged in and asked for a chat and the server has answered both, a true offer in that chat leaves the client at rest with a receipt sent, or waiting for exactly the byte its FILE_RESUME_REQUEST asks for, whatever comes afterwards; this is what `EveryFileArrives` starts from |
| `Resuming.ReconnectResumes` | ChatRoom/src/client/client_file_transfer.cpp:406-505 | After any run of connections, when the connection is lost at any point, in the middle of a payload too, and the user comes back to the chat, the same offer is answered with FILE_RESUME_REQUEST for exactly the byte at which the download was interrupted: no byte that was received is asked for again |
| `Resuming.RecordedThroughout` | ChatRoom/src/client/client_file_transfer.cpp:321-505 | Over every run of arrivals, acts of the user and reconnects each download in progress has its record, under the account its .part file belongs to |
| `Resuming.InProgressSaved` | ChatRoom/src/client/client_file_transfer.cpp:406-471 | What a download in progress has received is exactly what is saved of it |
| `Resuming.EntryTakesUp` | ChatRoom/src/client/client_app.cpp:526-560 | When a chat is entered, every offer kept for it is asked for or acknowledged |
| `Resuming.OfferKept` | ChatRoom/src/client/client_file_transfer.cpp:876-915 | An offer for a chat that is not shown is kept behind those kept before, and nothing else happens |
| `Quiet.ServerOpens` | ChatRoom/src/server/chat_server_sessions.cpp:45-134 | The lines the server prints for a login, a confirmed entry and an offer are such an opening |
| `Quiet.LoggedIn` | ChatRoom/src/client/client_app.cpp:721-728 | The answer to LOGIN makes the pending name the account and changes nothing else |
| `Quiet.EnteredChat` | ChatRoom/src/client/client_chat_session.cpp:153-217 | A confirmed entry shows the chat that was asked for |
| `Quiet.QuietIsCalm` | ChatRoom/src/client/client_app.cpp:672-775 | Judged from the texts alone: texts that do not name a transfer on its way, log out or answer a chat entry leave it alone, whatever the client's state and whatever its user does |
| `Quiet.RepliesQuiet` | ChatRoom/src/server/chat_server_heartbeat.cpp:30-41 | The replies the server sends between frames, PONG and FILE_ACK_OK, concern no transfer the client is receiving |
| `Quiet.OfferAsks` | ChatRoom/src/client/client_file_transfer.cpp:321-505 | A true offer that is taken up is answered with a receipt when the file is already there, and else with FILE_RESUME_REQUEST for exactly the first byte that is not saved, which the client then waits for |
| `Quiet.WaitsHolds` | ChatRoom/src/client/client_file_transfer.cpp:321-505 | A client that waits for byte n of a transfer holds exactly the first n bytes of the stored file |
| `Download.DownloadSafety` | ChatRoom/src/client/client_app.cpp:634-670 | Over every run of connections, arrivals, user actions and reconnects, however each connection ends: every .part file is a prefix of the stored file (one for a transfer the server does not know is empty, and there is none after connections that ended with everything handled and no frame refused) and every finished file equals it; every FILE_RECEIVED ever sent carried the digest of the stored file and was sent with a local file equal to it; the lines read begin the lines of the texts submitted to the current connection, in order, and equal the lines of its stream once everything has arrived |
| `Download.ConnectionStream` | ChatRoom/src/minimuduo/net/TcpConnection.cpp:618-956 | In every state of a connection its stream is one the client can follow: the bytes written begin it, and its lines are those of the submitted texts in submission order |
| `Download.OwnedItemOk` | ChatRoom/src/file_transfer_service.cpp:59-100 | Every control line and frame a delivery puts into the stream is admissible: a frame carries exactly the stored bytes its header announces |
| `Download.ControlTextsOk` | ChatRoom/src/file_transfer_service.cpp:45-56 | FILE_RESUME_START and FILE_DONE are whole lines that no cut turns into an offer |
| `Download.ReplyTextsOk` | ChatRoom/src/server/chat_server_heartbeat.cpp:30-41 | PONG and FILE_ACK_OK are whole lines that no cut turns into an offer |
| `Download.BracketLineOk` | ChatRoom/src/chat_server.cpp:685-698 | Chat, system and error lines are admissible lines of the stream, even when cut off |
| `Download.LatestExpected` | ChatRoom/src/minimuduo/net/TcpConnection.cpp:618-643 | Through every run the lines a client should read are those of texts submitted to its latest connection |
| `Download.LogUnits` | ChatRoom/src/client/client_app.cpp:634-670 | The byte stream of a connection is the concatenation of its lines and frames, and its lines are the lines of its texts in order |
| `Identity.DownloadIdentity` | ChatRoom/src/client/client_file_transfer.cpp:507-676 | When a connection has written everything and the client received it, in any pieces and with any acts of the user in between, nothing was refused, a delivery in progress has reached the client up to its offset, and a finished one left the client with the stored file and a receipt |
| `Identity.StreamArrives` | ChatRoom/src/client/client_app.cpp:634-670 | After every item of a stream, whatever the user does between any two bytes, the client is with each delivery exactly as far as the stream has got, from the moment the file was asked for until the stream holds no more of it |
| `Identity.FrameArrives` | ChatRoom/src/client/client_file_transfer.cpp:952-985 | A frame that continues what the client holds is accepted and appended, with acts of the user inside its header and payload, and other transfers keep what they have |
| `Identity.ItemFollows` | ChatRoom/src/client/client_app.cpp:634-775 | No item, of another delivery or of none, disturbs a delivery that is on its way, begun or only asked for |
| `Identity.TextArrives` | ChatRoom/src/client/client_app.cpp:634-775 | A text whose lines leave the transfers on their way alone, each in the state it is handled in, leaves them alone as a whole |
| `Identity.OwnerActive` | ChatRoom/src/file_transfer_service.cpp:45-56 | A delivery that sends has been asked for and is not over |
| `Identity.DoneArrives` | ChatRoom/src/client/client_file_transfer.cpp:987-996 | FILE_DONE after the last byte leaves the stored file and a receipt |
| `Identity.FinishedHas` | ChatRoom/src/client/client_file_transfer.cpp:570-676 | After the last byte the finish path stores exactly the content and acknowledges it with its digest |
| `Identity.ResumeStartArrives` | ChatRoom/src/client/client_file_transfer.cpp:925-950 | FILE_RESUME_START at the offset the client waits for changes nothing |
| `Identity.CalmLine` | ChatRoom/src/client/client_app.cpp:672-775 | A line that concerns none of the transfers still on their way leaves their downloads, the files and the receipts as they are; a logout, or lines about transfers that are complete, included |
| `Play.PiecesPlay` | ChatRoom/src/client/client_app.cpp:601-670 | A client that gets its stream in any pieces, with acts of the user between them, is where reading byte by byte with the same acts at the same bytes leads |
| `Play.PlayLine` | ChatRoom/src/client/client_app.cpp:634-670 | A line is handled once, when its newline is read, in the state the acts of the user have led to by then |
| `Play.PlayPayload` | ChatRoom/src/client/client_file_transfer.cpp:507-568 | A payload read byte by byte, with any acts of the user in between, is stored as a whole |
| `Play.DoAllCore` | ChatRoom/src/client/client_chat_session.cpp:98-151 | No act of the user touches downloads, files, receipts or the frame being read |
| `Play.PlayedThen` | ChatRoom/src/client/client_app.cpp:601-670 | What comes later does not change where the first inputs have led, but for what the user does right then |
| `Sessions.EveryRun` | ChatRoom/src/client/client_app.cpp:21-109 | The client invariant holds after every sequence of arrivals, user actions and reconnects, after refused frames too |
| `Sessions.StepSession` | ChatRoom/src/client/client_app.cpp:634-670 | Each round of the receive loop keeps the reader in step with the stream, the disk in order and every receipt true; a refused frame ends only the first of these |
| `Sessions.RestartOk` | ChatRoom/src/client/client_app.cpp:104-108 | However a connection ended, read failure with unhandled bytes and refused frame included, handling the rest of the buffer as a last line and starting again with the same disk gives a session in order |
| `Sessions.RunToRun` | ChatRoom/src/client/client_app.cpp:634-670 | What is followed of the receive loop is on its way, and without a refused frame it is all of it |
| `Sessions.LastLineKnown` | ChatRoom/src/client/client_app.cpp:104-105 | After a connection whose bytes were all handled, no .part file belongs to a transfer the server does not know |
| `Sessions.CutLine` | ChatRoom/src/client/client_app.cpp:104-105 | What is left of a line when the connection breaks never reads as a false offer |
| `ClientDisk.TextLineDisk` | ChatRoom/src/client/client_file_transfer.cpp:678-1004 | Every text line keeps .part files prefixes and finished files equal to the stored files, and acknowledges a transfer only when a local file equals it |
| `ClientDisk.AnyLine` | ChatRoom/src/client/client_app.cpp:104-105 | Any text at all, handled as a line in any state, keeps .part files prefixes, finished files equal and receipts true: cut lines, several lines at once, raw payload |
| `ClientDisk.StartAny` | ChatRoom/src/client/client_file_transfer.cpp:321-505 | Even a false offer can only empty or remove a .part file, and its receipt is true |
| `Refusals.TruthfulRun` | ChatRoom/src/client/client_app.cpp:634-670 | A stream that is read truthfully keeps the disk in order and the receipts true, behind refused frames too |
| `Refusals.PrefixCondition` | ChatRoom/src/client/client_app.cpp:634-670 | For every stream, refused frames or not: the .part files are prefixes throughout the run if and only if every byte read as payload continues the stored file of its transfer |
| `Refusals.PayloadRound` | ChatRoom/src/client/client_file_transfer.cpp:507-568 | A payload round leaves the .part files prefixes if and only if its bytes are the right ones |
| `Refusals.LineParts` | ChatRoom/src/client/client_file_transfer.cpp:678-1004 | No line, whatever it says, makes a .part file stop being a prefix |
| `Refusals.RefusedPayloadObeyed` | ChatRoom/src/client/client_file_transfer.cpp:952-985 | The payload of a refused frame is obeyed as text: if it spells the header the client waits for, the bytes behind it are stored whatever they are |
| `Refusals.RefusedPayloadSpoils` | ChatRoom/src/client/client_file_transfer.cpp:952-985 | If those bytes do not continue the stored file, the disk has a .part file that is no prefix any more |
| `ClientDisk.FinishDisk` | ChatRoom/src/client/client_file_transfer.cpp:570-676 | The finish path acknowledges a file only when it equals the stored one: size and prefix suffice |
| `ClientDisk.StartDownloadDisk` | ChatRoom/src/client/client_file_transfer.cpp:321-505 | Starting or resuming a download keeps the disk in order; the acknowledgement of a file that is already there is honest too |
| `ClientDisk.PayloadDisk` | ChatRoom/src/client/client_file_transfer.cpp:507-568 | Payload bytes that continue the stored file keep its .part file a prefix |
| `Offers.OfferRoundTrip` | ChatRoom/src/file_transfer_service.cpp:436-448 | A printed offer is read back as itself under a safe file name; only the text "-" is read as empty |
| `Offers.OfferLineOk` | ChatRoom/src/file_transfer_service.cpp:436-448 | A true offer is an admissible line: no cut of it reads as a false offer |
| `FileLines.DataLineParses` | ChatRoom/src/file_transfer_service.cpp:82-84 | A printed FILE_DATA header is read back as its three numbers |
| `FileLines.ResumeStartLineParses` | ChatRoom/src/file_transfer_service.cpp:53-55 | A printed FILE_RESUME_START is read back as its two numbers |
| `FileLines.DoneLineParses` | ChatRoom/src/file_transfer_service.cpp:73-74 | A printed FILE_DONE is read back as its number |
| `Partition.DeliveryCovers` | ChatRoom/src/file_transfer_service.cpp:28-119 | The payloads of a delivery continue one another from its start offset; a delivery that finished well has sent exactly the rest of the file between one FILE_RESUME_START and one FILE_DONE, and its callback was called once |
| `Partition.TraceCovers` | ChatRoom/src/file_transfer_service.cpp:59-100 | An unbroken delivery stream has laid exactly the content from the start offset on end to end |
| `Partition.NextFrameFits` | ChatRoom/src/file_transfer_service.cpp:79-80 | A frame has 1 byte to 4 MiB, fits the receiver limit, shrinks what is left, is short only at the end, and its 64-bit offset sum does not wrap |
| `Connection.TcpConnection.constructor` | ChatRoom/src/minimuduo/net/TcpConnection.cpp:218-230 | A new connection satisfies the invariant and has sent nothing |
| `Connection.TcpConnection.NobodyForgotten` | ChatRoom/src/file_transfer_service.cpp:45-110 | On a connected peer a delivery that is not over never waits for nothing: a completion is about to run or the socket will wake the connection |
| `Connection.TcpConnection.FlushTlsOutput` | ChatRoom/src/minimuduo/net/TcpConnection.cpp:487-550 | Keeps the framing invariant; completions of an emptied buffer are handed over and none is lost; leaves the buffer empty or an event armed that resumes it; a socket that keeps accepting empties it; a read that waits for the write event keeps it exactly unless the write ends by wanting to read |
| `Connection.TcpConnection.FinishOutputCompletions` | ChatRoom/src/minimuduo/net/TcpConnection.cpp:564-581 | Completions are handed over only when everything before them is written |
| `Connection.TcpConnection.SendInLoop` | ChatRoom/src/minimuduo/net/TcpConnection.cpp:618-643 | A submitted text enters the stream or waits behind the active frame, in submission order; the stream stays a concatenation of whole texts and frames |
| `Connection.TcpConnection.DrainDeferredSends` | ChatRoom/src/minimuduo/net/TcpConnection.cpp:931-941 | All waiting texts enter the stream in order, none is left |
| `Connection.TcpConnection.SendFileFrameInLoop` | ChatRoom/src/minimuduo/net/TcpConnection.cpp:693-717 | A frame starts or is queued; the invariant holds through all completions run on the way |
| `Connection.TcpConnection.StartFileFrame` | ChatRoom/src/minimuduo/net/TcpConnection.cpp:719-746 | The header enters the stream and its payload follows it directly |
| `Connection.TcpConnection.FlushFileSend` | ChatRoom/src/minimuduo/net/TcpConnection.cpp:748-896 | The payload starts only when the buffer is empty; with an accepting socket the whole delivery is sent, FILE_DONE included |
| `Connection.TcpConnection.StreamPayload` | ChatRoom/src/minimuduo/net/TcpConnection.cpp:770-893 | The payload loop reports exactly whether the last byte is out, and otherwise leaves an event armed |
| `Connection.TcpConnection.FinishActiveFileSend` | ChatRoom/src/minimuduo/net/TcpConnection.cpp:898-929 | Waiting texts, the completion and the next queued frame follow; nothing is left waiting for a frame that is not there |
| `Connection.TcpConnection.StartNextQueuedFileFrame` | ChatRoom/src/minimuduo/net/TcpConnection.cpp:943-956 | The oldest queued frame starts; none is stranded |
| `Connection.TcpConnection.CompleteFrame` | ChatRoom/src/minimuduo/net/TcpConnection.cpp:912-929 | The finished frame moves its delivery on, then the oldest queued frame; on a connected peer only a cancelled delivery can fail; with nothing left to send the write event is off, even for a read that waits for it |
| `Connection.TcpConnection.SendDone` | ChatRoom/src/file_transfer_service.cpp:71-78 | FILE_DONE enters the stream or waits behind a frame, its completion with it, and the delivery waits for exactly that |
| `Connection.TcpConnection.RunFrameCompletion` | ChatRoom/src/file_transfer_service.cpp:88-98 | The delivery goes on behind the frame, or gives up when the connection is closing |
| `Connection.TcpConnection.PumpSendNext` | ChatRoom/src/file_transfer_service.cpp:59-100 | The next frame, FILE_DONE, or the end of the delivery; an accepting socket takes the whole rest |
| `Connection.TcpConnection.Send` | ChatRoom/src/minimuduo/net/TcpConnection.cpp:107-126 | A text is accepted exactly while the connection is up |
| `Connection.TcpConnection.SendQueued` | ChatRoom/src/minimuduo/net/TcpConnection.cpp:107-126 | A text handed over by another thread is accepted by the loop as long as the connection is not closed, also while it is closing |
| `Connection.TcpConnection.StartDelivery` | ChatRoom/src/file_transfer_service.cpp:45-56 | A delivery starts at its offset with FILE_RESUME_START submitted, or ends at once when the connection is not up |
| `Connection.TcpConnection.StartQueued` | ChatRoom/src/file_transfer_service.cpp:45-56 | A delivery a worker started while the connection was up: its FILE_RESUME_START enters the stream unless the connection is closed by then, also while it is closing |
| `Connection.TcpConnection.CancelDelivery` | ChatRoom/src/chat_server.cpp:1818-1850 | Cancelling changes only the flag |
| `Connection.TcpConnection.RunFunctor` | ChatRoom/src/minimuduo/net/EventLoop.cpp:133-148 | The oldest completion runs once; a delivery that starts is sent completely by an accepting socket |
| `Connection.TcpConnection.HandshakeDone` | ChatRoom/src/minimuduo/net/TcpConnection.cpp:366-397 | What was buffered before the handshake is sent or an event is armed |
| `Connection.TcpConnection.HandleWrite` | ChatRoom/src/minimuduo/net/TcpConnection.cpp:277-308 | A write event keeps the connection valid and, with an accepting socket, sends everything |
| `Connection.TcpConnection.HandleRead` | ChatRoom/src/minimuduo/net/TcpConnection.cpp:251-275 | A read event resumes a write that waited for it |
| `Connection.TcpConnection.Close` | ChatRoom/src/minimuduo/net/TcpConnection.cpp:583-604 | Closing keeps every fact about what was sent |
| `Connection.TcpConnection.BeginShutdown` | ChatRoom/src/minimuduo/net/TcpConnection.cpp:170-192 | Beginning to shut down keeps the invariant |
| `Turns.IdleMeansOver` | ChatRoom/src/file_transfer_service.cpp:59-110 | Where no completion, text or frame waits, every delivery is over and has called back once |
| `Turns.SubmittedTurn` | ChatRoom/src/minimuduo/net/TcpConnection.cpp:632-643 | A text that enters the stream takes nothing from any delivery, and its completion now waits |
| `Turns.UndeferredTurn` | ChatRoom/src/minimuduo/net/TcpConnection.cpp:931-941 | A waiting text that enters the stream brings its completion along |
| `Turns.StartedTurn` | ChatRoom/src/minimuduo/net/TcpConnection.cpp:738-746 | A frame put on the wire is what will move its delivery on |
| `Turns.AdvancedTurn` | ChatRoom/src/file_transfer_service.cpp:88-98 | After its frame it is the delivery's turn, and every other delivery still has what moves it |
| `Turns.RanFirstTurn` | ChatRoom/src/file_transfer_service.cpp:53-76 | A completion that runs gives its delivery the turn or ends it; no other delivery loses its own |
| `Turns.DequeuedTurn` | ChatRoom/src/minimuduo/net/TcpConnection.cpp:946-956 | Taking the oldest queued frame gives its delivery the turn and leaves the other frames queued |
| `Stream.WroteInv` | ChatRoom/src/minimuduo/net/TcpConnection.cpp:500-508 | Writing buffered bytes keeps framing, order, honesty and the deliveries |
| `Stream.FiredInv` | ChatRoom/src/minimuduo/net/TcpConnection.cpp:564-581 | Handing over the completions keeps the invariant: all their messages are on the wire |
| `Stream.SubmittedInv` | ChatRoom/src/minimuduo/net/TcpConnection.cpp:632-643 | A text that enters the stream keeps the invariant |
| `Stream.DeferredInv` | ChatRoom/src/minimuduo/net/TcpConnection.cpp:626-629 | A text that waits keeps the invariant |
| `Stream.UndeferredInv` | ChatRoom/src/minimuduo/net/TcpConnection.cpp:931-941 | The oldest waiting text that enters the stream keeps the invariant |
| `Stream.StartedInv` | ChatRoom/src/minimuduo/net/TcpConnection.cpp:738-746 | A frame header that enters the stream keeps the invariant |
| `Stream.StreamedInv` | ChatRoom/src/minimuduo/net/TcpConnection.cpp:786-795 | Payload bytes written keep the invariant: the rest of the payload still completes the frame |
| `Stream.LandedInv` | ChatRoom/src/minimuduo/net/TcpConnection.cpp:898-912 | A frame whose last byte is out ends where the next item begins |
| `Stream.AdvancedInv` | ChatRoom/src/file_transfer_service.cpp:88-98 | The offset that advances behind its frame matches the stream |
| `Stream.RanFirstInv` | ChatRoom/src/file_transfer_service.cpp:53-76 | Running the oldest completion moves its delivery to the phase the stream shows |
| `Stream.EnqueuedInv` | ChatRoom/src/minimuduo/net/TcpConnection.cpp:711-714 | A queued frame keeps the invariant |
| `Stream.DequeuedInv` | ChatRoom/src/minimuduo/net/TcpConnection.cpp:946-956 | The oldest queued frame may start: its delivery has no other |
| `Deliveries.SendTextOk` | ChatRoom/src/file_transfer_service.cpp:45-76 | A text entering the stream keeps every delivery in step with it |
| `Deliveries.StartFrameOk` | ChatRoom/src/file_transfer_service.cpp:79-98 | A frame entering the stream continues its delivery |
| `Deliveries.AdvanceOk` | ChatRoom/src/file_transfer_service.cpp:95-97 | After a frame its delivery holds its turn again |
| `Deliveries.TakeCompletionOk` | ChatRoom/src/file_transfer_service.cpp:53-76 | A completion is waited for by exactly one delivery |
| `Deliveries.NewPumpOk` | ChatRoom/src/file_transfer_service.cpp:32-56 | A new delivery fits a stream that holds nothing of it |
| `Honesty.FiredMeansWritten` | ChatRoom/src/minimuduo/net/TcpConnection.cpp:487-581 | A completion fires only after every byte of its message was written; the i-th to fire belongs to the i-th message with a completion |
| `Honesty.FiredOnce` | ChatRoom/src/minimuduo/net/TcpConnection.cpp:564-581 | Completions fire at most once and in submission order |
| `Honesty.DeliveredMeansWritten` | ChatRoom/src/chat_server.cpp:3275-3331 | A delivered row that is not NULL belongs to a message whose whole line some connection has written |
| `Honesty.WrittenIsRecorded` | ChatRoom/src/mysql_database.cpp:1412-1435 | In every run a message whose completion has fired is recorded as delivered, unless its task is still waiting or its update failed |
| `Honesty.PersistRecords` | ChatRoom/src/mysql_database.cpp:1412-1435 | The oldest task is taken; its row becomes delivered now if it was not before, and no other row changes |
| `Honesty.ActAllOk` | ChatRoom/src/mysql_database.cpp:1412-1436 | Over every run a recorded delivery never changes again |
| `ClientDemux.FragmentationIndependence` | ChatRoom/src/client/client_app.cpp:634-670 | However the stream is cut, the client ends in the state the whole stream leads to |
| `ClientDemux.FeedTwice` | ChatRoom/src/client/client_app.cpp:601-670 | Feeding a and then b has the effect of feeding a ++ b |
| `ClientDemux.PayloadNeverRejected` | ChatRoom/src/client/client_file_transfer.cpp:519-545 | In a valid state the over-run guard cannot fire and its 64-bit sum does not wrap |
| `ClientDemux.RunValid` | ChatRoom/src/client/client_app.cpp:634-670 | In every reachable state received plus remaining bytes fit the offered size, and the length of a .part file is its offset |
| `ClientDemux.ProcessLineValid` | ChatRoom/src/client/client_app.cpp:672-775 | No line breaks what the client keeps |
| `ClientDemux.AcceptedFrameFits` | ChatRoom/src/client/client_file_transfer.cpp:959-971 | An accepted frame fits the offered size |
| `ClientDemux.PreparedPart` | ChatRoom/src/client/client_file_transfer.cpp:406-467 | The .part file a download starts with exists, is not longer than offered, and other transfers keep theirs |
| `ClientDemux.DownloadResumes` | ChatRoom/src/client/client_file_transfer.cpp:406-505 | A download whose record says what is offered continues with all the bytes that are here, every other one starts empty; a finished file is acknowledged instead; record, .part file and download agree afterwards |
| `ClientEffects.PartsAfterOffer` | ChatRoom/src/client/client_file_transfer.cpp:406-471 | Exactly which .part files are there after an offer was taken up: the one of a different record of the transfer is gone |
| `ClientEffects.OfferRead` | ChatRoom/src/client/client_file_transfer.cpp:321-385 | An offer is read exactly when its seven words are in order; what is read has a size within the limit, a digest of the right form and a safe local name |
| `ClientEffects.ResumeStartEffect` | ChatRoom/src/client/client_file_transfer.cpp:925-950 | FILE_RESUME_START at another offset than the one asked for gives the download up and reports it; otherwise nothing happens |
| `ClientEffects.FrameEffect` | ChatRoom/src/client/client_file_transfer.cpp:952-985 | An accepted header awaits its payload and changes nothing else; a refused one gives the download up unless it makes no sense at all |
| `ClientEffects.MalformedHeader` | ChatRoom/src/client/client_file_transfer.cpp:952-985 | A FILE_DATA header whose three numbers cannot be read is refused and nothing else happens |
| `ClientEffects.FinishEarly` | ChatRoom/src/client/client_file_transfer.cpp:570-592 | FILE_DONE for an incomplete download gives it up and leaves it resumable |
| `ClientEffects.FinishWrong` | ChatRoom/src/client/client_file_transfer.cpp:594-617 | A complete download with the wrong digest leaves neither .part file nor record, and starts from the beginning next time |
| `ClientEffects.FinishRight` | ChatRoom/src/client/client_file_transfer.cpp:618-676 | A complete download with the right digest becomes the file and is acknowledged; the same offer is answered with a receipt from then on |
| `ClientEffects.RevokeEffect` | ChatRoom/src/client/client_file_transfer.cpp:768-830 | FILE_ACCESS_REVOKED removes the download, its files and record, the offers kept for it in every chat and a frame of it that was being read, and nothing else |
| `ClientEffects.PrefixNames` | ChatRoom/src/client/client_file_transfer.cpp:795-815 | The kept offers that are dropped are those of this transfer and of no other |
| `ClientEffects.LoginEffect` | ChatRoom/src/client/client_app.cpp:721-735 | Only an answer to LOGIN logs in, under the name asked for; a failed one ends the request; other lines change nothing |
| `ClientEffects.FailedLoginForgotten` | ChatRoom/src/client/client_app.cpp:721-735 | After a failed login no later answer logs anybody in until the user asks again |
| `ClientEffects.LogoutEffect` | ChatRoom/src/client/client_app.cpp:754-774 | After a logout only the disk is left, and what has been said and read |
| `ClientEffects.DeleteEffect` | ChatRoom/src/client/client_app.cpp:741-774 | After an account was deleted its download records are gone, too, and nobody else's |
| `ClientEffects.EntryEffect` | ChatRoom/src/client/client_chat_session.cpp:153-217 | Only the answer to the pending request opens a chat; a refusal of its scope or a garbled answer ends the request |
| `ClientEffects.ActEffect` | ChatRoom/src/client/client_chat_session.cpp:98-151 | What the user's acts do: the name or chat asked for is remembered, leaving a chat ends its request, too, and forgetting offers concerns one chat only |
| `ClientEffects.LastLineHandled` | ChatRoom/src/client/client_app.cpp:104-105 | A last line whose newline never came is handled like one whose newline did |
| `ClientDemux.HandleFrame` | ChatRoom/src/client/client_file_transfer.cpp:952-985 | A frame header changes no file and is refused exactly when a check fails |
| `ClientDemux.FinishDownload` | ChatRoom/src/client/client_file_transfer.cpp:570-676 | A finished file is the .part file of a transfer whose size is complete; only that transfer is dropped |
| `ClientDemux.HandleSystemLine` | ChatRoom/src/client/client_app.cpp:718-774 | Logging out forgets downloads and offers and keeps the files; other lines keep them all |
| `ClientDemux.ClientApp.Receive` | ChatRoom/src/client/client_app.cpp:601-632 | Receiving data has the effect of the specification, and leaves nothing complete unhandled |
| `ClientDemux.ClientApp.ConsumeCompleteLines` | ChatRoom/src/client/client_app.cpp:634-670 | The loop computes the specification and keeps a valid state valid |
| `ClientDemux.ClientApp.ConsumePayload` | ChatRoom/src/client/client_file_transfer.cpp:507-568 | Takes the available payload, or gives the frame up exactly when a check fails |
| `ServerDemux.ScheduleIndependence` | ChatRoom/src/chat_server.cpp:139-243 | With no overlong line, any fragmentation and any timing of the re-queued calls ends where one call on the whole input would end |
| `ServerDemux.BatchFair` | ChatRoom/src/chat_server.cpp:152-300 | A connection that uploads nothing handles at most 32 commands before the others have their turn, and asks for another turn only when there is more to handle |
| `ServerDemux.IndependenceCondition` | ChatRoom/src/chat_server.cpp:238-242 | Every cut of the input has the outcome of the whole if and only if no terminated line is longer than 8192 bytes |
| `ServerDemux.LongLineCut` | ChatRoom/src/chat_server.cpp:238-242 | An input with an overlong line can be cut so that the connection is closed although the line goes through in one piece |
| `ServerDemux.RunMore` | ChatRoom/src/chat_server.cpp:152-236 | Running first and receiving more afterwards is receiving everything and then running |
| `ServerDemux.StepValid` | ChatRoom/src/chat_server.cpp:152-236 | The collected frame stays inside the announced size, and the upload mismatch never occurs |
| `ServerDemux.ChatSession.OnMessage` | ChatRoom/src/chat_server.cpp:139-243 | One call stops exactly where the specification does, yielding included |
| `ServerDemux.ChatSession.TakeFrameBytes` | ChatRoom/src/chat_server.cpp:164-201 | Payload is collected and a complete frame appended |
| `ServerDemux.ChatSession.TakeLine` | ChatRoom/src/chat_server.cpp:203-227 | One line is taken and its command dispatched |
| `ServerDemux.ChatSession.TakeChunkHeader` | ChatRoom/src/chat_server.cpp:2382-2436 | The header checks of FILE_CHUNK |
| `Uploads.UploadSafety` | ChatRoom/src/file_transfer_service.cpp:173-404 | Over every run of connects, disconnects and interleaved uploads, several connections with one token included, up to the first refused frame of each: a .part file is a prefix of its source and a stored file is its source byte for byte |
| `Uploads.UploadFinishes` | ChatRoom/src/chat_server.cpp:2438-2600 | An undisturbed upload ends after finitely many rounds; its content is stored if and only if no transfer was recorded under its token before |
| `Resent.InterruptedUploadFinishes` | ChatRoom/src/chat_server.cpp:2046-2210 | An upload under way may be interrupted at any point of any run: when its sender connects again, announces it again and sends what is missing from the offset the server names, it ends with the whole source stored, unless its token was recorded before |
| `Resent.IdentityKept` | ChatRoom/src/file_transfer_service.cpp:214-241 | The checkpoint of an upload keeps its identity until the upload has ended, whatever other connections do |
| `UploadEffects.BeginEffect` | ChatRoom/src/chat_server.cpp:2046-2210 | FILE_BEGIN is granted exactly when the session has no upload, the permission checks pass and what is here of the token is of the same upload; the session then continues at the byte where it was interrupted; otherwise the session has no upload and nothing else changes |
| `UploadEffects.EndEffect` | ChatRoom/src/chat_server.cpp:2438-2600 | FILE_END of the complete upload stores and records the file, or leaves nothing of it; FILE_END of anything else only ends the session's upload, which stays resumable |
| `UploadEffects.AbortEffect` | ChatRoom/src/chat_server.cpp:2602-2627 | FILE_ABORT of the session's upload removes its checkpoint and no stored file; of anything else it does nothing |
| `UploadEffects.MalformedEffect` | ChatRoom/src/chat_server.cpp:2046-2120 | A FILE_BEGIN that makes no sense only ends the session's upload |
| `UploadEffects.OthersStay` | ChatRoom/src/chat_server.cpp:139-201 | Whatever a connection handles, the sessions of the others stay as they are |
| `UploadEffects.RequestsRead` | ChatRoom/src/chat_server.cpp:2046-2260 | Both printed FILE_BEGIN commands and FILE_ABORT are read back as the request they make |
| `Resent.RecordedLost` | ChatRoom/src/chat_server.cpp:2438-2600 | A stored file of a recorded transfer disappears in a step exactly when the step ends another upload under its token and name that passes the checks |
| `Resent.ResentUploadLost` | ChatRoom/src/chat_server.cpp:2438-2600 | For every token, name and content there is a run that records and stores the upload and, after the upload is sent once more, has lost the file of the recorded transfer |
| `Resent.NameSent` | ChatRoom/src/chat_server.cpp:2083-2100 | Every file name of 1 to 255 bytes can be sent and is stored under its sanitized form |
| `Resent.BeginLineParses` | ChatRoom/src/chat_server.cpp:2046-2100 | A printed FILE_BEGIN_PRIVATE is read back as the upload it announces |
| `Uploads.ActOk` | ChatRoom/src/chat_server.cpp:152-201 | Every step of every connection keeps the upload area in order |
| `Uploads.FrameOk` | ChatRoom/src/file_transfer_service.cpp:284-329 | Payload that continues the source keeps the .part file a prefix, whoever else appends |
| `Uploads.FinishOk` | ChatRoom/src/file_transfer_service.cpp:331-404 | A finalized upload is the source: size and prefix suffice |
| `Uploads.ReactOk` | ChatRoom/src/chat_server.cpp:2046-2210 | Begin, end and abort keep the upload area in order and resume at an offset inside the true size |
| `Uploads.HeaderStep` | ChatRoom/src/chat_server.cpp:2382-2436 | A frame header is taken off the buffer; with somebody logged in it opens its frame exactly when every check passes and is refused otherwise, with nobody logged in the session stays as it is |
| `Uploads.SendUploadData` | ChatRoom/src/client/client_file_transfer.cpp:274-319 | The client sends exactly the frames of the source from the offset on, then FILE_END, or nothing when the offset is beyond the file |
| `Uploads.UploadUnitsOk` | ChatRoom/src/client/client_file_transfer.cpp:288-318 | What the client sends is a stream the server can follow |
| `Uploads.ChunkLineParses` | ChatRoom/src/client/client_file_transfer.cpp:291-293 | A printed FILE_CHUNK header is read back as its token and numbers |
| `UploadStore.FileTransferService.BeginOrResumeUpload` | ChatRoom/src/file_transfer_service.cpp:173-273 | An interrupted upload is resumed exactly when it is the same one and fits, at the number of bytes already here, and nothing changes; without a checkpoint an upload starts with nothing |
| `UploadStore.UploadResumes` | ChatRoom/src/file_transfer_service.cpp:214-273 | The same of the specification, with the identity spelled out: scope, sender, target, name, size and digest |
| `UploadStore.FileTransferService.AppendUploadBytes` | ChatRoom/src/file_transfer_service.cpp:284-329 | Bytes are added only at the expected end of the file |
| `UploadStore.FileTransferService.FinalizeUpload` | ChatRoom/src/file_transfer_service.cpp:331-404 | The .part file becomes the stored file exactly when size and digest are right |
| `UploadStore.FileTransferService.CancelUpload` | ChatRoom/src/file_transfer_service.cpp:406-420 | Cancelling removes the checkpoint and nothing else |
| `PolicyCache.CachesAgree` | ChatRoom/src/chat_server.cpp:615-680 | In every reachable state a private message that skips the check would have passed it, and a group message that skips the queries goes to the right group and recipients, unless a bump is outstanding or the generation moved while an entry handler was asking; registration, logout, other logins and account deletion included |
| `PolicyCache.VerdictExact` | ChatRoom/src/server/direct_message_policy.cpp:3-47 | A message is allowed exactly when all four queries pass, and a refusal names the first one that does not |
| `PolicyCache.PrivateEntry` | ChatRoom/src/server/chat_server_sessions.cpp:15-72 | ENTER_PRIVATE by itself caches the target exactly when a message to it would be allowed, and otherwise changes nothing |
| `PolicyCache.MessageCaches` | ChatRoom/src/chat_server.cpp:571-684 | After MSG the target is cached exactly when it was before or the message is allowed |
| `PolicyCache.GroupEntry` | ChatRoom/src/server/chat_server_sessions.cpp:75-134 | ENTER_GROUP and GROUP_MSG by themselves cache the other members as recipients exactly when the user is a member, and otherwise change no cache |
| `PolicyCache.ActInv` | ChatRoom/src/chat_server.cpp:1888-1933 | Every step of every session keeps the caches in agreement; entry handlers and group messages run query by query |
| `PolicyCache.LateLoad` | ChatRoom/src/server/chat_server_sessions.cpp:38-52 | What an entry handler stores is right whenever the generation it loads equals the one before its first query and no bump is outstanding |
| `PolicyCache.StaleMeansMoved` | ChatRoom/src/server/chat_server_sessions.cpp:92-132 | A cache that is used and wrong with nothing outstanding was stored by an entry during which the generation moved |
| `PolicyCache.ChangedInBetween` | ChatRoom/src/server/chat_server_sessions.cpp:113-129 | Every group change that is bumped between the last query and the load leaves an entry that looks current, right exactly when it kept this group and its other members |
| `PolicyCache.VerdictChanges` | ChatRoom/src/server/chat_server_sessions.cpp:38-52 | Every change of friendships or blocks that is bumped between the last query of ENTER_PRIVATE and its load leaves a target that looks current, right exactly when the new tables still allow it |
| `PolicyCache.LatePrivateStale` | ChatRoom/src/server/chat_server_sessions.cpp:38-52 | A run from the start in which a message to somebody who is no friend any more would skip the check |
| `PolicyCache.LateEntryStale` | ChatRoom/src/server/chat_server_sessions.cpp:92-129 | A run from the start in which stale recipients look current |
| `Friends.RelationsStayInOrder` | ChatRoom/src/chat_server.cpp:745-793 | Over every run of commands friendships are ordered pairs, requests are never mutual and never between friends, and whoever is blocked is a friend |
| `Verdicts.BlockCloses` | ChatRoom/src/server/direct_message_policy.cpp:27-43 | A block closes private messages in both directions, each with its reason |
| `Verdicts.UnblockOpens` | ChatRoom/src/server/direct_message_policy.cpp:27-43 | Unblocking opens both directions again exactly when the other side does not block |
| `Verdicts.RemoveCloses` | ChatRoom/src/server/direct_message_policy.cpp:18-26 | Unfriending closes both directions |
| `Verdicts.AcceptOpens` | ChatRoom/src/server/direct_message_policy.cpp:3-47 | An accepted request opens both directions |
| `Verdicts.OthersKeepVerdict` | ChatRoom/src/server/direct_message_policy.cpp:3-47 | Asking and rejecting change no verdict, and no command changes a verdict between two users it is not about |
| `Verdicts.BothWays` | ChatRoom/src/server/direct_message_policy.cpp:3-47 | Messages between two users are allowed in both directions or in neither |
| `Verdicts.VerdictAnyGroups` | ChatRoom/src/server/direct_message_policy.cpp:3-47 | Group memberships do not matter for private messages |
| `Friends.CommandEffect` | ChatRoom/src/chat_server.cpp:724-955 | Each friend command is done exactly when the tables allow it and changes exactly the rows it is about; a refusal changes nothing and gives a true reason |
| `Friends.ApplyInv` | ChatRoom/src/mysql_database.cpp:838-992 | Every friend command keeps the three tables consistent and none fails on a duplicate key |
| `Friends.AcceptInv` | ChatRoom/src/mysql_database.cpp:838-893 | The insert inside accept never meets a duplicate key |
| `Friends.NeverNoRequest` | ChatRoom/src/chat_server.cpp:829-838 | The accept handler never answers that there is no request: a missing one, and nothing else, is reported as a database error, with the tables unchanged |
| `Friends.RemoveInv` | ChatRoom/src/mysql_database.cpp:924-992 | Unfriending removes the friendship and both blocks |
| `Friends.DeleteInv` | ChatRoom/src/mysql_database.cpp:555-587 | Deleting an account removes exactly its own rows from each of the three tables |
| `Friends.PairSymmetric` | ChatRoom/src/mysql_database.cpp:495-502 | The stored pair does not depend on who asks, and is ordered |
| `Friends.AskAndAnswer` | ChatRoom/src/chat_server.cpp:745-838 | Asking and accepting makes friends; asking and rejecting changes nothing; the other side cannot ask at the same time |
| `Friends.RemoveUndoesAccept` | ChatRoom/src/mysql_database.cpp:924-992 | Unfriending undoes a friendship together with a block made on it |
| `Friends.FriendDesk.AddFriend` | ChatRoom/src/chat_server.cpp:745-793 | A request is made exactly between different existing users who are neither friends nor asked by one of them; then the other side can accept it, cannot ask back and it is not made twice; otherwise nothing changes |
| `Friends.FriendDesk.AcceptFriend` | ChatRoom/src/mysql_database.cpp:838-893 | Delete and insert in one transaction; the key is always free; a missing request is a database error |
| `Friends.FriendDesk.RemoveFriend` | ChatRoom/src/mysql_database.cpp:924-992 | Whoever asks, the two are no friends afterwards and neither blocks the other; every other pair stays as it is |
| `Groups.GroupsStayInOrder` | ChatRoom/sql/004_create_groups_and_offline_delivery.sql:19-60 | Over every run of commands, account deletions included, each group has exactly one member with the owner role, its recorded owner, and nobody is a member and asks to join at once |
| `Groups.ExecuteInv` | ChatRoom/src/chat_server.cpp:1226-1268 | Every group command keeps the tables consistent and none fails on a duplicate key |
| `Groups.CreateEffect` | ChatRoom/src/chat_server.cpp:1107-1150 | CREATE_GROUP under a free name makes the actor the owner and only member; nothing else changes |
| `Groups.DissolveEffect` | ChatRoom/src/chat_server.cpp:1151-1210 | DISSOLVE_GROUP is done for the owner and nobody else, and removes exactly that group |
| `Groups.AskEffect` | ChatRoom/src/chat_server.cpp:1211-1278 | APPLY_GROUP is done for whoever is no member and has not asked |
| `Groups.LeaveEffect` | ChatRoom/src/chat_server.cpp:1309-1365 | LEAVE_GROUP is done for every member but the owner, who alone loses the membership |
| `Groups.PromoteEffect` | ChatRoom/src/chat_server.cpp:1414-1486 | ADD_GROUP_ADMIN is done by the owner for an ordinary member, whose role alone changes |
| `Groups.DemoteEffect` | ChatRoom/src/chat_server.cpp:1487-1548 | REMOVE_GROUP_ADMIN is done by the owner for an administrator, whose role alone changes |
| `Groups.AnswerEffect` | ChatRoom/src/chat_server.cpp:1627-1740 | A manager's answer to a request makes the asker an ordinary member, or nothing; anybody else's changes nothing |
| `Groups.ExpelEffect` | ChatRoom/src/chat_server.cpp:1741-1855 | REMOVE_GROUP_MEMBER is done by the owner for everybody else and by an administrator for ordinary members; exactly that membership ends |
| `Groups.DeleteEffect` | ChatRoom/sql/004_create_groups_and_offline_delivery.sql:1-60 | Deleting an account takes its groups, memberships and requests along, and nothing else |
| `Groups.RefusalsTrue` | ChatRoom/src/chat_server.cpp:1107-1855 | Every refused group command changes nothing and gives a true reason |
| `Verdicts.LeaversGetNothing` | ChatRoom/src/chat_server.cpp:1857-1970 | Who leaves or is removed is no recipient of group messages any more; everybody else stays one |
| `Verdicts.NewcomersGetMessages` | ChatRoom/src/chat_server.cpp:1857-1970 | Who is approved is a recipient from then on |
| `Groups.OnlyOwnerChangesRoles` | ChatRoom/src/chat_server.cpp:1432-1533 | Only the owner changes the role of someone who stays a member |
| `Groups.OnlyManagersRemove` | ChatRoom/src/chat_server.cpp:1764-1802 | Whoever loses a membership left, was deleted, or was expelled by the owner, or by an administrator while being an ordinary member |
| `Groups.ApproveInv` | ChatRoom/src/mysql_database.cpp:1948-2011 | The insert inside approve never meets a duplicate key |
| `Groups.DeleteInv` | ChatRoom/src/mysql_database.cpp:555-587 | Deleting an account takes its groups with it and keeps the rest consistent |
| `Groups.AskAndAnswer` | ChatRoom/src/chat_server.cpp:1645-1675 | Asking and being approved makes an ordinary member; being rejected changes nothing |
| `EventLoop.NoLostWakeup` | ChatRoom/src/minimuduo/net/EventLoop.cpp:47-148 | In every run each functor runs at most once and in order, and a wakeup is lost exactly when loop() is called over functors for which nobody has written or will write, and no other thread pushes or quits before it polls |
| `EventLoop.StartCondition` | ChatRoom/src/minimuduo/net/EventLoop.cpp:47-68 | The first call of loop() sleeps over waiting functors exactly when its own thread has queued one and no other thread has queued anything or asked it to quit before the first look at `quit_` |
| `EventLoop.RestartCondition` | ChatRoom/src/minimuduo/net/EventLoop.cpp:47-68 | The same for every later call in every run, with no wakeup left over from the call before, which may have returned after a round or without polling |
| `EventLoop.ReturnCondition` | ChatRoom/src/minimuduo/net/EventLoop.cpp:55-75 | loop() returns at its next look exactly when somebody has asked it to quit since it started |
| `EventLoop.TidyNeverSleeps` | ChatRoom/src/minimuduo/net/EventLoop.cpp:85-105 | An owner that queues nothing outside loop() never loses a wakeup |
| `EventLoop.UnsafeStart` | ChatRoom/src/minimuduo/net/EventLoop.cpp:85-94 | Such a start is possible |
| `EventLoop.RoundRunsAll` | ChatRoom/src/minimuduo/net/EventLoop.cpp:133-148 | One undisturbed round runs everything queued before it |
| `ThreadPool.PoolStates` | Threadpool/include/ThreadPool.h:148-202 | Accepted tasks are the disjoint union of queued, running and finished; the active count is the number running and at most the workers; no waiter or worker misses its notification, the one of the stop included |
| `ThreadPool.WaitAllReturns` | Threadpool/include/ThreadPool.h:103-112 | A thread in waitAll that looks returns exactly when every task accepted so far has run |
| `ThreadPool.ShutdownRunsAll` | Threadpool/include/ThreadPool.h:115-144 | The shutdown that stopped the pool returns only after every accepted task has run |
| `CacheWriter.RowsExactly` | ChatRoom/src/client/client_message_cache.cpp:250-346 | In every run the tables hold exactly the messages whose write succeeded and whose account was not cleared afterwards, in the order they were handed over; when every write succeeds and nothing is cleared, a flush that has returned has seen them all stored |
| `CacheWriter.AccountExactly` | ChatRoom/src/client/client_app.cpp:721-774 | Each message handed over belongs to the account of the last login, as long as there was no logout or deletion since |
| `CacheWriter.WriterStates` | ChatRoom/src/client/client_message_cache.cpp:250-346 | Writes are attempted in order; a flush that returned has seen every earlier one; nobody misses a notification; a worker that left has attempted everything |
| `CacheWriter.DeletedStaysDeleted` | ChatRoom/src/client/client_app.cpp:737-774 | After an account-deleted line was handled, no row of the account reappears until the next login to it |
| `CacheWriter.ClearingDeletes` | ChatRoom/src/client/client_app.cpp:744-752 | Clearing after the flush leaves no row of the account |
| `OutputQueue.TlsClientTransport.EnqueueOutput` | ChatRoom/src/client/tls_client_transport.cpp:103-120 | Accepted exactly when connected and within 8 MiB; the queue grows by exactly the data |
| `OutputQueue.TlsClientTransport.FlushQueued` | ChatRoom/src/client/tls_client_transport.cpp:128-189 | Accepted bytes are written or queued in order within the budget; a successful flush that leaves data has set what to wait for, and a write event is wanted exactly when data is left that does not wait for a read |
| `OutputQueue.TlsClientTransport.WriteFront` | ChatRoom/src/client/tls_client_transport.cpp:138-160 | One write takes bytes off the front item and keeps the counter exact |
| `OutputQueue.TlsClientTransport.QueueSend` | ChatRoom/src/client/tls_client_transport.cpp:121-127 | A successful send has accepted exactly the data |
| `Buffer.Buffer.MakeSpace` | ChatRoom/src/minimuduo/net/Buffer.cpp:128-140 | Growing or compacting keeps the readable bytes; the assertion holds when reached from ensureWritableBytes |
| `Buffer.Buffer.AppendBytes` | ChatRoom/src/minimuduo/net/Buffer.cpp:80-84 | The readable bytes grow by exactly the data |
| `Buffer.Buffer.Retrieve` | ChatRoom/src/minimuduo/net/Buffer.cpp:32-39 | The readable bytes shrink from the front |
| `Buffer.Buffer.RetrieveAsString` | ChatRoom/src/minimuduo/net/Buffer.cpp:52-57 | What is taken and what stays make up what was there |
| `Buffer.Buffer.FindEOL` | ChatRoom/src/minimuduo/net/Buffer.cpp:63-66 | The position of the first newline, if there is one |
| `Buffer.Buffer.ReadFd` | ChatRoom/src/minimuduo/net/Buffer.cpp:90-113 | Data read in two pieces arrives in order |
| `MessageLines.PrivateRoundTrip` | ChatRoom/src/client/client_message_cache.cpp:7-95 | A printed private line is read back as itself if and only if its content is not "-" |
| `MessageLines.LegacyRead` | ChatRoom/src/client/client_message_cache.cpp:7-101 | Private lines of the older form are read the same way |
| `MessageLines.RawContentKept` | ChatRoom/src/client/client_message_cache.cpp:7-101 | Content that cannot be decoded is kept as it came |
| `MessageLines.GroupRoundTrip` | ChatRoom/src/client/client_message_cache.cpp:102-177 | A printed group line is read back as itself if and only if its content is not "-" |
| `MessageLines.PrivateIsNoGroup` | ChatRoom/src/client/client_message_cache.cpp:102-118 | A private line is never read as a group line |
| `MessageLines.GroupIsNoPrivate` | ChatRoom/src/client/client_message_cache.cpp:7-33 | A group line is never read as a private line |
| `MessageLines.PublicIsNeither` | ChatRoom/src/chat_server.cpp:566-568 | A public line is neither, whatever its sender and text |
| `Percent.PercentEncode` | ChatRoom/src/file_utils.cpp:17-38 | The loop computes the encoding of sections 2.1 and 2.3 of RFC 3986 |
| `Percent.PercentDecode` | ChatRoom/src/file_utils.cpp:40-86 | The loop computes the decoding or finds the text malformed |
| `Percent.DecodeEncode` | ChatRoom/src/file_utils.cpp:17-86 | Decoding undoes encoding for every byte string |
| `Percent.MalformedRefused` | ChatRoom/src/file_utils.cpp:40-75 | A percent sign without two hex digits behind it cannot be decoded |
| `Percent.SanitizedName` | ChatRoom/src/file_utils.cpp:151-171 | The local file name is safe in every case: 1 to 180 safe characters, neither "." nor ".."; a safe name stays as it is, and directories are dropped |
| `Percent.TokenRoundTrip` | ChatRoom/src/client/client_common.cpp:43-55 | The token round trip fails on exactly one text, "-" |
| `Text.ParsePrintedCommand` | ChatRoom/src/protocol.cpp:34-45 | A printed command line parses back to its name and arguments |
| `Text.CommandAsTyped` | ChatRoom/src/protocol.cpp:10-45 | A command is read the same in any case, with any white space around it and behind its name |
| `Text.ParseUint64Exact` | ChatRoom/src/client/client_common.cpp:22-40 | Only digits make a number, leading zeros do not matter, and a number beyond 64 bits is refused |
| `Text.ReturnStripped` | ChatRoom/src/client/client_app.cpp:655-670 | One carriage return is dropped, and only at the end of a line |
| `Play.ReturnIgnored` | ChatRoom/src/client/client_app.cpp:634-670 | A carriage return before the newline makes no difference |
| `Text.DecimalRoundTrip` | ChatRoom/src/client/client_common.cpp:22-41 | A printed number parses back when it fits 64 bits, and only then |

## Left out

- The plain (non-TLS) write path, graceful shutdown ordering and what happens after `kDisconnecting` beyond safety.
- A failed `open` in `startFileFrame`, which runs the completion with nothing sent.
- What follows a refused frame on the same connection, in either direction, beyond `Refusals`.
- Order between queued frames of different deliveries, and the order of a revocation notice relative to frames already queued.
- Liveness under a fair scheduler: progress is stated for a socket that keeps accepting, an undisturbed loop round and an undisturbed upload.
- The worker queue of `deliver_async` and the checks of FILE_RESUME_REQUEST, FILE_RECEIVED and FILE_RECEIVE_FAILED.
- Showing and deferring chat messages in the client, unread notices, menus, numeric commands and the heartbeat.
- The effect of a "removed from group" line on the client is an event of its own (`ForgetOffers`, `LeaveChat`), not parsed.
- Download directories use the account name as it is; sanitizing leaves every valid user name unchanged.
- Sanitized names of different tokens, and the copy fallback of `finalize_upload` when a rename fails.
- Redis presence and unread counters, history queries, offline batches, events and notifications.
- Password hashing, registration limits and login bookkeeping.
- MySQL, SQLite and protobuf encodings: transactions are updates of sets and maps, and friend and group commands are functions over them rather than methods over a database handle.
- 64-bit wrap-around of generations, message ids and transfer counters.
- OpenSSL, kTLS, epoll and socket calls, configuration and logging.
- linux_ftp_server and shell, and the matrix helpers of the thread pool.
- Quiet.EveryFileArrives: assumes that deliveries of one transfer do not overlap on a connection, and that between the request and the last item of a delivery no text logs the client out or revokes or offers again its transfer.
- Identity.DownloadIdentity: assumes that deliveries of one transfer do not overlap, texts that leave alone what is on its way, and deliveries that start at the offset the client waits for; `Quiet` replaces the last by how the file was asked for.
- UploadStore.FileTransferService.FinalizeUpload: does not model a digest that is right for other bytes of the same size; `Uploads.FinishOk` does without the digest.
