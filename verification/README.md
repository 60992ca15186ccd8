# LocalSend for Sailfish, verified

A Dafny model of the transfer core of this LocalSend v2 client, with proofs about it. `dafny verify
dfyconfig.toml` checks everything.

Code that changes objects from slot to slot is a class with the same fields, whose methods are proved
to do what a specification on values says; the theorems are about that specification, over every run.
Code that loops is a method with the same loop.

| files | what they are about |
|---|---|
| Bytes, HttpHead, HttpHeadText, HttpReader, HttpSplit, HttpCuts, HttpLimits, HttpDelivery, HttpOrder, Chunked, HttpConnection | the HTTP/1.1 request reader: framing (section 6.3 of RFC 9112), the chunked coding (section 7.1 of RFC 9112), and the reader as an object that is fed arbitrary fragments |
| Transfers, TransferModel | the rows of a transfer, the running totals, and the span of rows a view is told about |
| Naming, NamingExhausted, Sets | filtering of peer-supplied text, file names, and the search for a free one |
| Receive, ReceiveInvariant, ReceiveSafety, ReceiveDisk, ReceiveLinger, ReceiveAnswers, ReceiveRows, ReceiveFrame, ReceiveStable, ReceiveNames, ReceiveConns, ReceiveProbe, ReceiveWitness, ReceiveService, ReceiveLoop | the receiving side: parked requests, sessions, concurrent uploads, the download folder, and the service as an object whose answers may close sockets and run further slots before they return |
| Send, SendInvariant, SendIds, SendSteps, SendService | the sending side: handshake, one file after another, cancelling |
| EndToEnd, EndToEndRows, EndToEndReceiver, EndToEndTables, EndToEndRun, EndToEndSafety, EndToEndNames, EndToEndDelivery, EndToEndProbe, EndToEndReader, EndToEndBytes, EndToEndWritten, EndToEndWitness | both sides and what lies between them |
| FloodFill | the mask of an icon, by a flood fill from its border |
| Cooldown, Sweep, Devices | discovery: answering announcements, the subnet sweep, the list of devices |
| RateLimiter, RateLimiterWitness, KnownDevices | the brake on guessing a PIN; trust on first use and the blocklist |

Conventions. Text is a sequence of UTF-16 code units, a file a sequence of bytes, the download folder a
map from paths to contents. Secrets (session ids, tokens) are numbers drawn in order, 0 being the empty
string: all that is used of them is that they are fresh. Clocks and what the outside world decides
(whether a file opens, a rename goes through, a write is short, a socket goes down while it is being
answered, what the digest of some bytes is, how case is folded) are parameters, so that every theorem
holds whatever they are. The two services each have a transfer model of their own, as in
tests/tst_transfer.cpp:148-153; in the application they share one (src/harbour-localsend.cpp:57-58), and
nothing is claimed about both being active on it at once. Nobody else is taken to change the download
folder while the service runs.

Where the code and what one would like to say of it part ways, the code is followed:

- How a stream is cut into reads can show: in a head or a chunk-size line that runs past 32 KiB, and in a
  block that is too long for a ceiling beyond what the device holds. `HttpCuts.CutShowsExactly` is the
  exact condition, and each of the three has a lemma with a family of inputs
  (`HttpCuts.LongHeadDependsOnTheCut`, `HttpCuts.LongSizeLineDependsOnTheCut`,
  `HttpSplit.ShortWriteDependsOnTheCut`).
- A finished row can be failed again by a second upload of the same file; exactly when is
  `ReceiveStable.DoneStaysExactly`, and `ReceiveWitness.DoneIsLost` is a run that does it. A sender as
  modelled here never sends a file twice under one session, which is part of the proof of
  `EndToEndDelivery.DoneIsDelivered`.
- A session can be left with nothing to wait for; by which event alone is
  `ReceiveLinger.OnlyHeadFailuresLinger`, and `ReceiveWitness.SessionLingers` is a run to one.
- A parked request can be let go unanswered; exactly when is `ReceiveAnswers.ParkedIsAnswered`, and
  `ReceiveWitness.ParkedIsDropped` is a run that does it.
- The write probe destroys a file of its own name: `ReceiveProbe.SparedExactly` says which files of the
  folder may be lost, and `EndToEndProbe.KeptExactly` which of those that were received. In
  `EndToEndDelivery.DoneIsDelivered` it is a condition on what the sender's file is called, and
  `EndToEndWitness.ProbeNamedIsLost` is a run that loses one.
- A PIN entered while a request is out makes a run end twice; `SendInvariant.PinNeedsQuiet` is the exact
  condition for every run to be reported over once.
- The end of a chunk is skipped unread (`HttpLimits.ChunkEndUnread`), and a trailer line has no size limit
  while it is unterminated: `HttpLimits.UnboundedExactly` says that this is the one place where the
  reader keeps more than 32 KiB waiting.
- A file of size 0 may report more bytes than it has; `Transfers.NoOverrunExactly` is the exact condition.
- A sender who is refused may be told to come back in 0 seconds, since the clock is read again for the
  wait: exactly when is part of `RateLimiter.RateLimiter.Attempt`, and
  `RateLimiterWitness.ToldToWaitForNothing` has the attempts.
- An entry of the rate limiter with no more than the free failures is never forgotten;
  `RateLimiter.ForgottenOnlyWhenQuiet` says exactly when one is.
- An address that comes while 512 others are tracked is not counted and not held back;
  `RateLimiter.CountedWhenRecorded` is the exact condition, and
  `RateLimiterWitness.NewcomerGuessesFreely` has the addresses.

## Model

| member | source | states |
|---|---|---|
| HttpReader.StepProgress | src/httpserver.cpp:179-226 | Every turn of the reading loops uses up buffered bytes or is the last one, so they end for every byte stream; a chunk that is being read always has bytes left to come |
| HttpHeadText.HeadRoundTrip | src/httpserver.cpp:228-289 | A head that was written out is read back as it was meant: verb, target, and a table with the one value of every name and nothing else, whatever the spelling of the names and the blanks around the values; it is refused exactly when it gives one name two values |
| HttpHead.CollectMeaning | src/httpserver.cpp:252-272 | A head is refused exactly when two of its lines give one name two values, wherever they stand; otherwise the table holds what the lines say and nothing else |
| HttpSplit.SplitInvariance | src/httpserver.cpp:179-226 | However a byte stream is cut into reads, the connection ends in the same phase, with the same head, body, signals and answer, as when it comes in one piece; unless a head or chunk-size line runs past 32 KiB before its end, or a block goes past a ceiling that is itself beyond what the device holds |
| HttpCuts.CutShowsExactly | src/httpserver.cpp:193-426 | And the exception is exact: every cutting ends alike if and only if no turn of the one long read is of those kinds, or it is an over-long size line of a body that is refused with 400 anyway |
| HttpSplit.RefusedStaysRefused | src/httpserver.cpp:179-226 | Once answered, a connection is not changed by whatever bytes still come, cut in whatever way |
| HttpCuts.LongHeadDependsOnTheCut | src/httpserver.cpp:193-206 | A complete head of more than 32 KiB is read in one piece and refused with 431 when it is cut before its blank line, and the two ends differ |
| HttpCuts.LongSizeLineDependsOnTheCut | src/httpserver.cpp:347-369 | A last-chunk line made longer than 32 KiB by an extension ends the message in one piece and is refused with 400 when it is cut before its line end |
| HttpSplit.ShortWriteDependsOnTheCut | src/httpserver.cpp:291-318 | Where the sink has less room than its ceiling allows, the same oversized block is answered 413 in one read and 500 in two |
| HttpLimits.KeepsLittle | src/httpserver.cpp:193-201 | Over every run of bytes, timeouts and replies, no more than 32 KiB are left waiting between two reads, except in the middle of a trailer line |
| HttpLimits.UnboundedExactly | src/httpserver.cpp:393-420 | A connection would keep any number of bytes waiting exactly when it is in the trailer section: what is there of a line is only counted once the line ends |
| HttpLimits.ChunkEndUnread | src/httpserver.cpp:385-391 | Whatever the two bytes after a chunk are, everything goes on as if they were CRLF |
| HttpDelivery.BodyInOrder | src/httpserver.cpp:320-341 | Whatever the owner wants of it and wherever it goes, after any fragments of a message with a length the reader has handed on a beginning of its body, and it has handed over a request only with all of it |
| HttpOrder.AtMostOnce | src/httpserver.cpp:428-500 | Over every run of bytes, timeouts, replies and disconnection, headersReady, 100-continue, requestReady, the response and closed come at most once each and in this order, and no request without its head |
| Chunked.ChunkedRoundTrip | src/httpserver.cpp:343-426 | For every body, every partition into non-empty chunks, any extensions and any trailers within 32 KiB, decoding the chunked coding yields exactly that body and hands it over once |
| Chunked.ChunkedMessage | src/httpserver.cpp:179-426 | The same for the whole message, head included, in any fragments, and nothing after the message is touched |
| Chunked.CountedMessage | src/httpserver.cpp:320-341 | A message framed by Content-Length hands over exactly that many bytes, in any fragments |
| Chunked.SizeTextRead | src/httpserver.cpp:354-367 | A chunk-size line with blanks, leading zeros and extensions in any spelling reads as the number it denotes |
| Chunked.SizeTextExists | src/httpserver.cpp:354-367 | Every chunk size has a size line, so the round trip leaves no partition out |
| Bytes.NumeralRoundTrip | src/httpserver.cpp:361-367 | A number written in a base reads back as itself |
| HttpConnection.HttpConnection.OnReadyRead | src/httpserver.cpp:179-226 | What the object does to its phase, buffer, counters and signals on a read is what feeding those bytes to the specified reader gives |
| HttpConnection.HttpConnection.AwaitHead | src/httpserver.cpp:193-201 | Looks for the end of the head in what has come so far and refuses one that grows too long |
| HttpConnection.HttpConnection.ReadHead | src/httpserver.cpp:203-214 | Parses the head that was found and goes on with the bytes after it |
| HttpConnection.HttpConnection.HeadIn | src/httpserver.cpp:208-226 | A preflight is answered, otherwise the owner decides what becomes of the body |
| HttpConnection.HttpConnection.StreamBodyTo | src/httpserver.cpp:157-166 | Sends the body to a sink with a ceiling, refusing at once a length that is announced beyond it |
| HttpConnection.HttpConnection.Deliver | src/httpserver.cpp:291-318 | Takes a block whole or refuses it: past the ceiling, on a short write, or too much to hold |
| HttpConnection.HttpConnection.ConsumeBody | src/httpserver.cpp:320-341 | Runs the body as far as the buffered bytes allow, as the specified turns do |
| HttpConnection.HttpConnection.ConsumeChunkedBody | src/httpserver.cpp:343-426 | The decoding loop over size line, data, line end and trailers takes the specified turns one by one and stops where they do |
| HttpConnection.HttpConnection.ReadSizeLine | src/httpserver.cpp:347-369 | One size line, refused when malformed or unterminated within 32 KiB |
| HttpConnection.HttpConnection.ReadChunkData | src/httpserver.cpp:371-383 | One run of chunk data, with its remainder kept positive |
| HttpConnection.HttpConnection.SkipChunkEnd | src/httpserver.cpp:385-391 | The two bytes after the data are skipped whatever they are |
| HttpConnection.HttpConnection.ReadTrailerLine | src/httpserver.cpp:393-420 | One trailer line; an empty one ends the message |
| HttpConnection.HttpConnection.FinishBody | src/httpserver.cpp:428-443 | Hands the request over once, with its whole body |
| HttpConnection.HttpConnection.Respond | src/httpserver.cpp:450-500 | The first answer is the only one |
| HttpConnection.HttpConnection.OnIdleTimeout | src/httpserver.cpp:168-177 | A connection that was not answered is answered 408 |
| HttpConnection.HttpConnection.OnHeaderDeadline | src/httpserver.cpp:511-515 | A head that is still not complete is answered 408 |
| HttpConnection.HttpConnection.OnDisconnected | src/httpserver.cpp:522-534 | closed() is emitted once |
| Transfers.TotalsAndView | src/transfermodel.cpp:198-362 | Over every run of setters that starts its transfers with zero counts, the running total is the sum of the rows under absolute, repeated, decreasing or clamped reports, and the next time the flush timer fires, if it is running at all, a view that copies only announced rows equals the model |
| Transfers.ShowKeeps | src/transfermodel.cpp:266-286 | The dirty span is exactly the smallest and largest touched row, in range also across a begin, every row outside it is shown as it is, and while anything is touched the flush timer is running |
| Transfers.DriftKept | src/transfermodel.cpp:324-362 | Every setter, with any argument, moves the running total exactly as it moves the rows |
| Transfers.CountsSettle | src/transfermodel.cpp:138-157 | Completed and failed rows together reach the number of rows exactly when no row is waiting or transferring |
| Transfers.NoOverrunExactly | src/transfermodel.cpp:346-362 | No run of setters makes any row report more than its size exactly when no row has size 0 |
| TransferModel.TransferModel.Begin | src/transfermodel.cpp:198-226 | Replaces the rows, zeroes the counts and resets the view |
| TransferModel.TransferModel.SetState | src/transfermodel.cpp:228-249 | Sets the state, and announces what was touched unless the transfer is active |
| TransferModel.TransferModel.RecomputeTotals | src/transfermodel.cpp:259-264 | The total size is the sum of the sizes |
| TransferModel.TransferModel.Touch | src/transfermodel.cpp:266-275 | Widens the dirty span by one row, and has the flush timer running afterwards |
| TransferModel.TransferModel.Flush | src/transfermodel.cpp:277-286 | Announces the span and empties it |
| TransferModel.TransferModel.OnFlushTimer | src/transfermodel.cpp:277-286 | The timer fires once, and what was touched since the last time is announced |
| TransferModel.TransferModel.SetFileToken | src/transfermodel.cpp:309-314 | Sets the token of a row that exists |
| TransferModel.TransferModel.SetFileLocalPath | src/transfermodel.cpp:316-322 | Sets the path of a row that exists and touches it |
| TransferModel.TransferModel.SetFileStatus | src/transfermodel.cpp:324-344 | A finished row counts for its whole size; the change is announced at once |
| TransferModel.TransferModel.SetFileTransferred | src/transfermodel.cpp:346-362 | A report is clamped to the size of the row, unless that is 0, and moves the total by the difference |
| TransferModel.TransferModel.CompletedCount | src/transfermodel.cpp:138-146 | Counts the finished rows |
| TransferModel.TransferModel.FailedCount | src/transfermodel.cpp:148-157 | Counts the failed and skipped rows |
| TransferModel.TransferModel.IsOver | src/receiveservice.cpp:596-602 | The end-of-session test holds exactly when every row is settled |
| TransferModel.TransferModel.IndexOfFile | src/transfermodel.cpp:364-371 | The first row with an id, -1 when there is none |
| Naming.FilterText | src/protocol.cpp:33-74 | The filtering loop keeps what is not stripped, in order, up to the length, and trims it |
| Naming.SanitizeAgain | src/protocol.cpp:33-74 | Filtering a second time changes nothing |
| Naming.SanitizeFileName | src/receiveservice.cpp:814-841 | A file name has no separator and no stripped character, is not empty, a dot or two dots, and never reaches the branch for names over 200 characters |
| Naming.ReserveFilePath | src/receiveservice.cpp:843-883 | The search loop finds the first free candidate, or none |
| Naming.ReservedIsFresh | src/receiveservice.cpp:843-883 | A reserved path is a direct child of the folder, does not exist, and neither does its part file |
| NamingExhausted.NamesApart | src/receiveservice.cpp:852-880 | The 999 candidates are pairwise different, and none is another with the part suffix |
| NamingExhausted.RefusedOnlyWhenFull | src/receiveservice.cpp:843-883 | The search gives up only when the folder already holds at least 999 entries |
| ReceiveSafety.EveryRun | src/receiveservice.cpp:209-788 | From the start, over every run with sockets going down inside any answer: never both a parked request and a session, each with its own timer and state; uploads and tokens only while a session is live; no byte goes to a file that is not open and whoever can still write has one open; part files are pairwise distinct and never longer than agreed; finished files are exact |
| ReceiveSafety.NextKeeps | src/receiveservice.cpp:209-788 | Every event keeps the invariant of session, uploads, connections and finished files |
| ReceiveInvariant.FinishLeavesNothing | src/receiveservice.cpp:695-781 | However a session ends, it leaves no upload, no part file, no token, no timer and no waiting or transferring row, and is reported over |
| ReceiveStable.DoneStaysExactly | src/receiveservice.cpp:605-724 | In a session, a finished row is safe from whatever comes next exactly when no connection is in the middle of sending its file a second time |
| ReceiveStable.DoneStays | src/receiveservice.cpp:209-788 | Once safe it stays as it is over any run, through the end of the session, until its rows are replaced |
| ReceiveStable.ClosingLoses | src/receiveservice.cpp:605-627 | Otherwise the socket of the second upload going away is enough, and the session goes on if anything else is left to do in it |
| ReceiveWitness.DoneIsLost | src/receiveservice.cpp:440-627 | A run from an empty folder in which a finished row is lost: two connections send the same one of two files, the first to its end, and the second goes away |
| ReceiveDisk.EndedOnce | src/receiveservice.cpp:695-781 | Over no run from the start does a session end twice |
| ReceiveDisk.RunSpares | src/receiveservice.cpp:440-645 | Through any run of concurrent uploads, failures, renames and endings, over any number of sessions, a file that is nobody's part file is not truncated, overwritten or removed, unless it has the write probe's name |
| ReceiveDisk.SessionSpares | src/receiveservice.cpp:440-645 | Within one session not even that name is an exception |
| ReceiveProbe.SparedExactly | src/receiveservice.cpp:792-812 | From any state that the service can be in: a file that nobody is writing keeps its contents through every run that can follow if and only if it is not called like the write probe |
| ReceiveDisk.AnsweredExactly | src/receiveservice.cpp:526-603 | A whole body is answered 200 exactly when the file has the declared number of bytes and, where a well-formed digest was declared, those bytes have it; then they are kept under a name nobody writes to, otherwise nothing is left |
| ReceiveDisk.AnsweredWithDigest | src/receiveservice.cpp:544-594 | With the check spelled out: 200 exactly when the bytes are as many as declared and, if a well-formed SHA-256 was declared, have it without regard to case |
| ReceiveDisk.ConcludedExactly | src/receiveservice.cpp:541-594 | An upload that leaves the table is kept exactly as written, with its row finished, or not at all |
| ReceiveLinger.OnlyHeadFailuresLinger | src/receiveservice.cpp:476-494 | The only event that leaves a live session with nothing to wait for is a file refused between its head and its body |
| ReceiveLinger.HeadFailureLingers | src/receiveservice.cpp:476-494 | And that one does, with the idle timer still running, when it was the last file outstanding |
| ReceiveWitness.SessionLingers | src/receiveservice.cpp:476-494 | A run from an empty folder to a session that lingers: the part file of its only file cannot be opened |
| ReceiveAnswers.ParkedIsAnswered | src/receiveservice.cpp:349-436 | A parked request that is let go has been answered or its socket is gone, exactly unless the peer took it back |
| ReceiveWitness.ParkedIsDropped | src/receiveservice.cpp:649-663 | A run from an empty folder in which a parked request is dropped: somebody, from any address, has it cancelled, and its connection stays open without an answer |
| ReceiveService.ReceiveService.OnPrepareUpload | src/receiveservice.cpp:209-347 | The checks in their order, each with its status; a request that passes them is parked, or accepted at once |
| ReceiveService.ReceiveService.Accept | src/receiveservice.cpp:349-392 | Prepares the folder, draws a session and a token per file, and tells the sender; without a folder the request fails |
| ReceiveService.ReceiveService.IssueTokens | src/receiveservice.cpp:364-376 | Every row gets a token of its own, and the table holds the last one of each id |
| ReceiveService.ReceiveService.Decline | src/receiveservice.cpp:394-403 | A parked request is answered 403 and let go |
| ReceiveService.ReceiveService.OnAcceptTimeout | src/receiveservice.cpp:405-415 | A request nobody decided on is declined |
| ReceiveService.ReceiveService.OnPendingClosed | src/receiveservice.cpp:417-427 | A parked request whose socket is gone is let go |
| ReceiveService.ReceiveService.OnUploadHeaders | src/receiveservice.cpp:440-524 | Session, token, address and row are checked in order; a free name is reserved and the part file opened, or the row fails; a length that is too large is refused, which may close the socket inside the call |
| ReceiveService.ReceiveService.CheckUpload | src/receiveservice.cpp:442-474 | The status an upload is answered with before it reaches the folder |
| ReceiveService.ReceiveService.OnBlock | src/httpserver.cpp:291-318 | A block goes whole into the open file and its digest, or is refused, or is cut short and answered 500 |
| ReceiveService.ReceiveService.Write | src/hashingfile.cpp:9-20 | Exactly the bytes that reach the file go into the running digest |
| ReceiveService.ReceiveService.OnBodyEnd | src/receiveservice.cpp:526-603 | The upload is concluded and answered, and the session ends if that settled its last row |
| ReceiveService.ReceiveService.FinishUpload | src/receiveservice.cpp:541-594 | Size first, then digest, then the rename; the row and the file follow the outcome |
| ReceiveService.ReceiveService.OnUploadClosed | src/receiveservice.cpp:605-627 | A socket that goes away in the middle of an upload fails its row, removes its part file and may end the session |
| ReceiveService.ReceiveService.CloseUpload | src/receiveservice.cpp:629-645 | The upload leaves the table and its part file the disk |
| ReceiveService.ReceiveService.OnCancelRequest | src/receiveservice.cpp:649-663 | A parked request is dropped unanswered; a session is stopped when it is the one named or none is named |
| ReceiveService.ReceiveService.Cancel | src/receiveservice.cpp:665-676 | A parked request is declined, a session stopped |
| ReceiveService.ReceiveService.FinishSession | src/receiveservice.cpp:695-781 | The teardown loops answer every open upload with 500, remove its part file, fail its row, skip what is left and settle the state, also when answering closes sockets and runs further slots |
| ReceiveService.ReceiveService.CutOffUploads | src/receiveservice.cpp:706-714 | All open uploads are cut off, in whatever order they are found |
| ReceiveService.ReceiveService.OnSessionIdle | src/receiveservice.cpp:783-790 | A session that has gone quiet is ended |
| ReceiveService.ReceiveService.Respond | src/httpserver.cpp:450-500 | Answering a connection whose socket goes down runs the slots connected to its closing before it returns |
| ReceiveService.ReceiveService.OnConnTimeout | src/httpserver.cpp:168-177 | A connection that was answered is closed, one that was not is answered 408 |
| ReceiveLoop.Handle | src/receiveservice.cpp:159-193 | Every event is taken by the slot it belongs to, keeps the invariant and does what the machine says |
| SendInvariant.EveryRun | src/sendservice.cpp:61-467 | Over every run in which a PIN is entered only when one is awaited: every run that became busy and is over was reported over exactly once, at most one request is out, no row up to the current one is waiting, and once uploading had begun every row is left done, failed or skipped |
| SendInvariant.PinNeedsQuiet | src/sendservice.cpp:177-184 | In every run that follows a PIN, each run of the service is reported over exactly once, if and only if no request was out when the PIN was entered |
| SendInvariant.TwoPinsEndTwice | src/sendservice.cpp:177-184 | Two PINs in a row put two handshakes in flight, and one run is reported over twice |
| SendInvariant.StartKeeps | src/sendservice.cpp:284-345 | Going on to the next file settles the rows it passes over and sends one request or ends the run |
| SendIds.EntriesApart | src/sendservice.cpp:103-120 | The ids made up for a request are pairwise different, whatever was picked |
| SendSteps.StartSteps | src/sendservice.cpp:284-345 | The next upload is for a later row than the last, no row becomes done by it, and it ends for any number of files that cannot be opened |
| SendService.SendService.OnSendFiles | src/sendservice.cpp:61-132 | Nothing happens while busy or with nothing to send; a blocked peer fails at once; otherwise the readable files become rows and the handshake goes out |
| SendService.SendService.Entries | src/sendservice.cpp:100-120 | One row for each readable file, numbered by its place in the selection |
| SendService.SendService.RequestUpload | src/sendservice.cpp:134-175 | Offers every row and holds on to the reply |
| SendService.SendService.OnSubmitPin | src/sendservice.cpp:177-184 | Sends the handshake again, if busy |
| SendService.SendService.OnPrepareFinished | src/sendservice.cpp:186-282 | Every status has its end; a grant starts the upload of the files it covers |
| SendService.SendService.TakeTokens | src/sendservice.cpp:255-268 | Each row gets its token or is skipped; the count is positive exactly when some row got one |
| SendService.SendService.OnStartNextFile | src/sendservice.cpp:284-345 | The loop and the recursion find the next waiting row that can be opened, and end |
| SendService.SendService.OnUploadFinished | src/sendservice.cpp:347-378 | A success finishes the row, 409 ends the run, anything else fails the row and goes on |
| SendService.SendService.CompleteTransfer | src/sendservice.cpp:394-418 | Finished exactly when every row is done |
| SendService.SendService.FailTransfer | src/sendservice.cpp:420-437 | Skips what is waiting and reports the end |
| SendService.SendService.OnCancel | src/sendservice.cpp:439-467 | Aborts the request that is out, skips what is unfinished and reports the end |
| SendService.SendService.Handle | src/sendservice.cpp:61-467 | Every event is taken by its slot and does what the machine says |
| EndToEndDelivery.DoneIsDelivered | src/sendservice.cpp:284-378 | Over every interleaving of sender, receiver, other peers, cancels, lost answers and dropped connections: a file the sender counts as done was brought by a connection of his under this run's session, and what that connection brought is stored with the source's bytes, unless the file is called like the write probe and another session has come since; and while the receiver's model shows the session it counts the file as done under the same id and points there |
| EndToEndDelivery.DoneIsThere | src/sendservice.cpp:284-378 | So a file by any other name lies, through every later session, with the source's bytes at the path where the upload this run made of it was kept |
| EndToEndProbe.KeptExactly | src/receiveservice.cpp:541-594 | What a connection of the sender's brought stays stored, byte for byte, through every run that can follow, if and only if it was not kept under the write probe's name |
| EndToEndWitness.ProbeNamedIsLost | src/receiveservice.cpp:792-812 | A run in which that happens: a file called like the probe arrives, the sender is finished with it, and the next session in the folder removes it |
| EndToEndBytes.DoneThroughBytes | src/httpserver.cpp:179-341 | The same with bytes in between: every connection of the sender's has a reader that gets its request in fragments of any size, and what the reader makes of them is all the receiving side hears (EndToEndWritten has a way of writing the requests that meets the assumption) |
| EndToEndBytes.BytesAreEvents | src/httpserver.cpp:179-341 | Every run over bytes is, in what the two ends do, a run of the events the end-to-end theorems are about: nothing that comes out of a reader is anything but the next part of the body, or its end |
| EndToEndSafety.ReceivedIsSent | src/receiveservice.cpp:440-603 | The other way round: while that session is shown, no row is done that the sender did not send, and its file holds what he read |
| EndToEndSafety.TakeKeeps | src/sendservice.cpp:186-378 | Every event at either end, and every arrival of a connection, keeps the invariant of the two ends together |
| EndToEndWitness.OneFileArrives | src/sendservice.cpp:61-418 | The theorem is about something: for any file, an empty one too, any address and any folder there is a run at whose end the sender is finished with the file and it lies in that folder with the bytes it had |
| EndToEndTables.ReceiverKeeps | src/receiveservice.cpp:440-645 | Whatever happens at the receiver, what the sender's connections brought stays stored, counted and answered for |
| EndToEndTables.NeverDoneBefore | src/receiveservice.cpp:467-474 | The sender's own request is never answered that its file is there already |
| EndToEndRun.StartRun | src/sendservice.cpp:284-345 | The file that goes out next has not gone out under this session before |
| EndToEndRun.SuccessIsKept | src/sendservice.cpp:347-362 | A success the sender hears comes from the connection that carried his request, and its body was kept |
| EndToEndRows.DoneNotBusy | src/receiveservice.cpp:706-713 | Nobody is sending a file of the sender's session that is done already |
| EndToEndNames.KeptComesOffered | src/receiveservice.cpp:476-524 | A body is kept under the write probe's name only if its file was offered under that name, in the request its session was opened for |
| ReceiveNames.ReservedProbe | src/receiveservice.cpp:843-883 | Of all the names the search tries, only the clean one can be the probe's, and only for a file that is called so |
| ReceiveNames.NextNames | src/receiveservice.cpp:440-645 | Until the rows are replaced they keep their ids and names, and every new upload of one goes to a path of that name |
| EndToEndReader.BlocksAreGenuine | src/httpserver.cpp:291-341 | What one more read hands on to the service is the next part of the body the connection carries, as the end-to-end theorems take it to be |
| EndToEndReader.EndsAreGenuine | src/httpserver.cpp:428-443 | And when the reader hands a request over, it has handed on the whole of that body |
| FloodFill.ShapeMask | scripts/make_icons.py:60-103 | A pixel is marked 0 exactly when it is not solid and joined to the border by a 4-connected path of such pixels, and 255 otherwise |
| FloodFill.Fill | scripts/make_icons.py:75-100 | The queue runs dry; what is marked is exactly what is reachable, and no pixel is queued twice |
| FloodFill.SeedBorder | scripts/make_icons.py:78-87 | The open pixels of the border are queued, each once |
| FloodFill.Expand | scripts/make_icons.py:89-99 | The open neighbours of a pixel are queued unless they were |
| FloodFill.Solid | scripts/make_icons.py:65-70 | The solid pixels, row after row |
| FloodFill.ShapeOpen | scripts/make_icons.py:65-70 | A pixel is open exactly when it is in the picture and not vivid |
| FloodFill.AllQueued | scripts/make_icons.py:89-99 | When every queued pixel has been expanded, everything reachable was queued |
| Cooldown.Responder.RespondTo | src/discovery.cpp:476-513 | An announcement is answered exactly when its address was not answered within the cooldown, as far as the table remembers; a full table is cleared first |
| Cooldown.CloseRepliesNeedClear | src/discovery.cpp:488-504 | Two answers to one address less than the cooldown apart have a clear between them |
| Cooldown.ClearsFarApart | src/discovery.cpp:497-504 | From one clear to the next there are at least 256 answers, and nothing else |
| Cooldown.TableBounded | src/discovery.cpp:497-504 | The table never holds more than 256 addresses |
| Cooldown.FloodBound | src/discovery.cpp:488-504 | Answers to one address within one cooldown stay below two, plus one for every 257 things done meanwhile, however many announcements are forged |
| Sweep.TargetsAre | src/discovery.cpp:589-615 | The targets are both transports of hosts 1 to 254 of every network of ours except our own addresses, none twice |
| Sweep.PrefixesDistinct | src/discovery.cpp:589-597 | No network is swept twice |
| Sweep.NextKeeps | src/discovery.cpp:581-679 | At most 24 probes are out; a sweep that goes on has one out, and a full window while anything is queued; queued, in flight and done never exceed the total; a sweep that is over has none out |
| Sweep.EveryRun | src/discovery.cpp:581-679 | Over every run of scans, replies and cancels: no target of a sweep is probed twice and none it did not set out for; until a cancel queued, in flight and done make up the total, and when it is over every target was probed; after a cancel nothing is queued |
| Sweep.SettlesInTime | src/discovery.cpp:629-661 | Without a cancel, queued plus in flight plus done is the total throughout, and the sweep is over exactly when every probe has been answered |
| Sweep.WholeSweep | src/discovery.cpp:581-661 | A whole sweep ends after as many replies as there are targets and not before, each target probed exactly once |
| Sweep.CancelledSweep | src/discovery.cpp:663-679 | Cancelled at any point, a sweep sends no further probe and ends with the last one that is out |
| Sweep.Sweeper.OnScanSubnet | src/discovery.cpp:581-627 | The nested loops build the queue of targets and fill the first window |
| Sweep.Sweeper.PumpScanQueue | src/discovery.cpp:629-643 | Fills the window from the queue, and finishes when nothing is left |
| Sweep.Sweeper.OnScanReplyFinished | src/discovery.cpp:645-661 | One probe settles and the next goes out |
| Sweep.Sweeper.OnCancelScan | src/discovery.cpp:663-671 | The queue is dropped; what is out settles |
| Devices.DeviceModel.Upsert | src/devicemodel.cpp:122-176 | A blocked device is taken off, a known one brought up to date and moved if it was renamed, a new one put in while there is room; the list stays the sorted enumeration of the map this makes |
| Devices.DeviceModel.InsertionPoint | src/devicemodel.cpp:107-120 | Everything before the point sorts before the device and everything from it on after |
| Devices.DeviceModel.IndexOfFingerprint | src/devicemodel.cpp:98-105 | The row of a key, -1 exactly when it is not listed |
| Devices.DeviceModel.Remove | src/devicemodel.cpp:178-188 | Takes a key off the list, if it is there |
| Devices.DeviceModel.Clear | src/devicemodel.cpp:190-199 | Empties the list |
| Devices.DeviceModel.Prune | src/devicemodel.cpp:243-261 | The backward loop leaves exactly the devices seen recently enough, in order |
| Devices.OneEnumeration | src/devicemodel.cpp:107-176 | There is only one sorted list of the devices of a map, so the list is determined by what is known and not by how it came about |
| Devices.OrderOfArrival | src/devicemodel.cpp:122-176 | As long as there is room for both, it does not matter which of two devices is heard first |
| Devices.CountIs | src/devicemodel.cpp:160-166 | The number of rows is the number of keys, so the cap on rows bounds the map |
| RateLimiter.RateLimiter.Attempt | src/receiveservice.cpp:227-240 | With a clock that each call reads anew: a guess is refused and told a wait, which is 0 exactly when the block ran out between the two readings, or counted, or clears its address; whatever came before, the failures every entry counts stay spaced by their backoffs, and there are never more than 512 entries |
| RateLimiterWitness.ToldToWaitForNothing | src/receiveservice.cpp:227-234 | Four mistakes after which an address is refused in the last millisecond of its wait and told to come back in 0 seconds |
| RateLimiter.RateLimiter.RecordFailure | src/ratelimiter.cpp:70-92 | Prunes, counts the failure if there is room, and sets the backoff |
| RateLimiter.BackoffAfter | src/ratelimiter.cpp:84-89 | The doubling loop gives min(1000 * 2^(f-4), 900000) for the f-th failure |
| RateLimiter.RateLimiter.Prune | src/ratelimiter.cpp:99-114 | Drops exactly the entries that were blocked and have been quiet for an hour since |
| RateLimiter.RateLimiter.Allow | src/ratelimiter.cpp:48-54 | Allowed exactly when not tracked or no longer blocked |
| RateLimiter.RateLimiter.RetryAfter | src/ratelimiter.cpp:56-68 | The seconds left, rounded up |
| RateLimiter.RateLimiter.RecordSuccess | src/ratelimiter.cpp:94-97 | The address starts over |
| RateLimiter.WaitIsEnough | src/ratelimiter.cpp:48-68 | The wait is 0 exactly when the guess is allowed, waiting that long suffices, and a second less does not |
| RateLimiter.FailedKeeps | src/ratelimiter.cpp:70-92 | A wrong guess that was let through keeps every entry spaced and the table within its bound, however much later the table is pruned and the new wait set |
| RateLimiter.CountedWhenRecorded | src/ratelimiter.cpp:72-81 | A wrong guess counts exactly when its address is tracked or there is room for it; one there is no room for is never held back |
| RateLimiterWitness.NewcomerGuessesFreely | src/ratelimiter.cpp:72-81 | After one mistake from each of 512 addresses another address may guess for as long as it likes, at whatever times, without being counted or held back |
| RateLimiter.GuessesTakeTime | src/ratelimiter.cpp:70-92 | The n-th wrong guess that an entry counts comes at least the sum of the backoffs in between after the m-th |
| RateLimiter.SearchTakesForever | src/ratelimiter.cpp:84-91 | From the fourteenth on they come a quarter of an hour apart |
| RateLimiter.ForgottenOnlyWhenQuiet | src/ratelimiter.cpp:99-114 | An entry is forgotten exactly when it has more than the free failures and an hour has passed since its last wait was over |
| KnownDevices.BlockedAsAsked | src/knowndevices.cpp:90-120 | Over any run of pairings, forgettings and restarts, whether a key is blocked is what was last asked for it |
| KnownDevices.BlocksKept | src/knowndevices.cpp:221-269 | No other operation changes whether a key is blocked |
| KnownDevices.PairingsEarned | src/knowndevices.cpp:190-214 | Only a completed exchange makes a key known |
| KnownDevices.LoadAfterSave | src/knowndevices.cpp:33-81 | Loading what was saved gives back the same catalogue, whatever order the members come in |
| KnownDevices.OldFileStillKnown | src/knowndevices.cpp:48-58 | A catalogue from before the flags, with keys in either case, still knows its devices and blocks none |
| KnownDevices.KnownDevices.AreInConflict | src/knowndevices.cpp:173-188 | A conflict is reported exactly when the key is not paired and some paired key carries the name, whatever order the table is gone through |
| KnownDevices.KnownDevices.ExpectedFingerprint | src/knowndevices.cpp:156-171 | Some paired key with the name, or none exactly when there is none or no name was given |
| KnownDevices.KnownDevices.OnSetBlocked | src/knowndevices.cpp:90-120 | Sets or lifts a block and saves; lifting one that is not there does nothing |
| KnownDevices.KnownDevices.OnRemember | src/knowndevices.cpp:190-214 | Records a pairing and saves |
| KnownDevices.KnownDevices.OnForget | src/knowndevices.cpp:221-239 | Loses the pairing, keeps a block, and saves |
| KnownDevices.KnownDevices.OnForgetAll | src/knowndevices.cpp:241-269 | Loses every pairing, keeps every block, and does nothing when there are only blocks |
| KnownDevices.KnownDevices.Save | src/knowndevices.cpp:61-81 | Writes one member for each entry |
| KnownDevices.KnownDevices.Load | src/knowndevices.cpp:33-59 | Reads the members in order, keys in upper case |

## Left out

- TLS, certificates, the cipher and key store around the saved files, the random generator: foreign calls.
- Sockets, timers and the event loop themselves: they are events that may happen while they are enabled.
- URL, query and JSON parsing: requests, replies and stored objects are data; a number in JSON is taken to be exact.
- The bytes of responses: an answer is its status, and for prepare-upload the session and tokens in it.
- HttpServer's table of sockets and its limits: connections are entries of a map under fresh numbers, so two names for one connection object, and its deletion, are not captured.
- The ghost-free heap of QFile and QNetworkReply objects: an open file is an entry of the upload table, a reply an entry of the table of requests that are out.
- Wrap-around of 64-bit byte counts: sizes and sums are unbounded, except where a chunk size or a content length is read.
- Error texts, signals that only repaint, the progress fraction and the speed readout.
- History, settings, notifications and the pairing that is recorded after a transfer: they do not feed back into the machines; whether a peer is blocked or its PIN is right is a verdict given with the request.
- The notification a side sends when it is cancelled: at the other side it is a cancel request that may come at any time, or never.
- EndToEndDelivery.DoneIsDelivered: a PIN is entered only when one is awaited, source files do not change, and a stranger does not know the tokens of the sender's session; a file called like the write probe may be lost to a later session.
- EndToEndBytes.DoneThroughBytes: the bytes of one connection come in order and unchanged, which is what TCP is for; how a head is written and understood (a URL with its query) is a parameter; prepare-upload requests and strangers' requests stay events.
- Cooldown.Responder.RespondTo: the datagram and the register request that make up an answer are one step.
- Devices.DeviceModel.Prune: ages are in whole seconds, as the comparison is.
- KnownDevices.LoadAfterSave: the encryption of the file, and a file that is not an object, which leaves the catalogue empty.
- saturation() of scripts/make_icons.py: which pixels are vivid is a parameter; so are resizing, erosion and the rest of the image work.
- Discovery's announcements, manual lookups and register replies beyond the sweep and the cooldown: they parse and forward.
- DeviceModel's roles, SelectionModel, HistoryModel, AppSettings, QML, translations and packaging: only easy claims.
