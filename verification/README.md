# STOMP event server and client: a verified model

This project models the event server (Java) and its keyboard client (C++) in
Dafny and proves what they are meant to guarantee.

- **Execution.** `ActorPool`, `ReadSide`, `Buffers`, `WriteSide` and `Reactor`
  are one transition system in pieces: the selector thread reads chunks of any
  size and submits tasks, N workers run them through the actor pool, byte-wise
  decoders cut frames, replies go to write queues in three separate steps
  (queue, selector task, wakeup), and the selector drains the queues by partial
  writes and then drops WRITE interest or closes the channel, with everybody else
  at work between its tests. Blocks under `synchronized` are one step, everything
  else interleaves. `Draining` and `Finishing` show that the writing half and the
  whole come to rest, `ReactorRuns` puts the protocol into the workers, `Endings`
  shows how finished connections get closed. `Wire` and
  `Transfers` hold the decoder and the transfer loops as the objects they are;
  `Blocking` is the thread-per-client loop, `Serving` what both kinds of
  connection do with a frame. `Buffers` and `Pooling` account for the read
  buffers, `ReactorTexts` reads the messages a reactor run queues.
- **Registry and protocol.** `Registry` and `Protocol` say what each operation
  and each frame does; `Connections` and `StompProtocol` are the classes proved
  to do it. `Consistency` and `Sessions` state the invariant of the shared
  tables over all interleavings of any number of connections, `Refinement`
  compares the whole with a plain login relation and a set of subscriptions,
  `Logins` says who is let in, `IdOrigins` where subscription ids come from.
  A Java name is a text with an address, so the scan with `==` is modelled as
  such.
- **Text and client.** `Text`, `StompText`, `Events`, `Relay`, `Reports`,
  `Receiving`, `Deliveries` and `Summary` follow a report from print through the
  server's own printer and its fan-out to the receiver's parser, statistics and
  summary. `Commands` says what each of the client's frames does at the server,
  `Receipts` what the server's answers do at the client. `Client` is the
  keyboard handler, `CommandLines` and `ClientRuns` say what it makes of a line;
  `ClientIds`, `ClientFrames` and `Composition` prove that clients and server
  together keep the assumption the server makes about subscription ids.

Assumptions that the statements name: `process` does not throw for the claims
on complete frames (a connection whose task threw is set aside, the pool claims
include it); a write does not fail, it may only be short; one `process` call, one
handler registration or one close is a step of `Sessions`. A frame may come there
at any time, also after its connection was closed or its protocol wanted to
terminate, as happens in the reactor; what must then be assumed of it is the predicate `Timely`, which
`Sessions.StoppingIsTimely` proves of a server that stops in time, as the
blocking one does. In `Composition` the server stops in time, typed lines hold
no newline and sent frames no NUL; in `Relay` owner, city and name are single
lines, and information keys and values hold no colon or newline.

Where the code departs from what one would expect, the code is followed and the
difference proved: of repeated headers the last one counts, while the STOMP
Protocol Specification, Version 1.2, "Repeated Header Entries", lets the first
one count; a reused subscription id breaks the index (`Consistency.ReusedIdBreaksIndex`,
exact condition in `Consistency.SubscribeKeepsInverse`); SUBSCRIBE before CONNECT
leaves an empty channel (`Sessions.SubscribeBeforeConnect`, exact condition in
`Sessions.StepKeepsConsistent`); a frame of the reactor's that comes after its
connection was closed or has logged out can make members of users who are not
logged in, logins without handlers and empty channels
(`Sessions.SubscribeAfterClose`, `Sessions.ConnectAfterClose`,
`Composition.LateFrameBreaks`, exact conditions in `Sessions.StepKeepsKeyed` and
`Sessions.StepKeepsConsistent`); a
CONNECT refused on a connection that is logged in leaves its name taken
until it is closed (`Sessions.LoginOutlives`, `Sessions.CloseReleases`); a close
that overtakes the request for WRITE interest of a reply ends `serve`
(`WriteSide.LastReplyEndsServe`, exact condition in `WriteSide.ServeEndsIff`); a
client refused with ERROR stays logged in without a connection
(`ClientIds.ErrorStrands`); a colon in a field loses it (`Relay.KeptIff`); the
parsed report has an entry `escription`; a channel name with a slash or outer
blanks is filed differently at the two ends (`Reports.SameNameAtBothEnds`);
reports tied in date and name may be written in either order
(`Summary.LinesDeterminedIff`); a frame longer than 2^30 bytes makes the decoder
throw (`Wire.LineMessageEncoderDecoder.DecodeNextByte`).

`dafny verify dfyconfig.toml` checks the project.

## Model

| member | source | states |
|---|---|---|
| `ActorPool.PoolSafety` | server/src/main/java/bgu/spl/net/srv/ActorThreadPool.java:28-76 | in every reachable state of any interleaving: no two workers hold one actor, an actor's tasks have started in submission order and none twice, it is marked as playing exactly while one of its tasks is queued, running or not yet completed, and an actor not playing has had all its tasks started |
| `ActorPool.PoolDrains` | server/src/main/java/bgu/spl/net/srv/ActorThreadPool.java:57-76 | once submission stops, no schedule has more steps than the initial measure, and a schedule with nothing left to do has started every submitted task exactly once, in order, with nobody playing |
| `ActorPool.SomeStepEnabled` | server/src/main/java/bgu/spl/net/srv/ActorThreadPool.java:57-76 | with at least one worker, a pool that is not at rest can always move without a new submission |
| `ActorPool.StepWorks` | server/src/main/java/bgu/spl/net/srv/ActorThreadPool.java:57-76 | every such move lowers the remaining work by exactly one and changes neither the submissions nor the number of workers |
| `ActorPool.QuiescentIsDone` | server/src/main/java/bgu/spl/net/srv/ActorThreadPool.java:67-76 | at rest no actor is playing, no actor has pending tasks and all submitted tasks have been started |
| `ActorPool.StepKeepsActor` | server/src/main/java/bgu/spl/net/srv/ActorThreadPool.java:28-76 | each step, for whichever actor, keeps the three facts known of one actor |
| `ActorPool.ActorThreadPool.Submit` | server/src/main/java/bgu/spl/net/srv/ActorThreadPool.java:28-37 | the object takes exactly the step `Submit` of the state machine |
| `ActorPool.ActorThreadPool.PendingRunnablesOf` | server/src/main/java/bgu/spl/net/srv/ActorThreadPool.java:43-55 | yields the actor's queue, an empty one being stored if there was none |
| `ActorPool.ActorThreadPool.TakeNext` | server/src/main/java/bgu/spl/net/srv/ActorThreadPool.java:57-60 | a free worker starts the oldest runnable |
| `ActorPool.ActorThreadPool.RunEnds` | server/src/main/java/bgu/spl/net/srv/ActorThreadPool.java:59-63 | the end of a run, normal or by exception, leaves only the completion to do |
| `ActorPool.ActorThreadPool.Complete` | server/src/main/java/bgu/spl/net/srv/ActorThreadPool.java:67-76 | the object takes exactly the step `Complete`: the next pending task is executed, or the actor stops playing |
| `ReadSide.FramesArriveInOrder` | server/src/main/java/bgu/spl/net/srv/NonBlockingConnectionHandler.java:55-89 | for every schedule and every chunking of the input, the frames given to `process` on a connection are a prefix of the NUL-delimited frames of all bytes read from it, in order, and all of them once the pool is at rest, provided no task of that connection threw |
| `ReadSide.StepKeepsConn` | server/src/main/java/bgu/spl/net/srv/NonBlockingConnectionHandler.java:65-82 | each act of selector or worker keeps, for each connection, the pool facts, the decoder state as a function of the bytes fed, and bytes fed followed by bytes waiting as the stream |
| `ReadSide.OnlyWorker` | server/src/main/java/bgu/spl/net/srv/ActorThreadPool.java:28-76 | while a worker holds a connection no other worker runs it, so its decoder and protocol have one user |
| `Buffers.BuffersHaveOneOwner` | server/src/main/java/bgu/spl/net/srv/NonBlockingConnectionHandler.java:55-89 | in every reachable state each read buffer ever made is in exactly one of: the pool (once), the selector's hand, one task; at rest all are pooled but one the selector may hold |
| `Pooling.MadeIsPeak` | server/src/main/java/bgu/spl/net/srv/NonBlockingConnectionHandler.java:129-141 | over every run the number of read buffers ever made is the largest number in use at once in any state of it, counting one for the selector's hand and one for each unfinished task |
| `Pooling.OneBufferServes` | server/src/main/java/bgu/spl/net/srv/NonBlockingConnectionHandler.java:129-141 | a run in which every buffer is back before the next is leased makes one at most |
| `Pooling.PoolIsQueue` | server/src/main/java/bgu/spl/net/srv/NonBlockingConnectionHandler.java:129-141 | over every run, what came back into the pool is what was leased from it followed by what is in it: first in, first out |
| `Pooling.RunFits` | server/src/main/java/bgu/spl/net/srv/NonBlockingConnectionHandler.java:15 | no task of any run is given more bytes than a buffer of 8K holds |
| `Pooling.StepBalanced` | server/src/main/java/bgu/spl/net/srv/NonBlockingConnectionHandler.java:55-89 | every step keeps: buffers made are those free and those in use |
| `WriteSide.NoLostInterest` | server/src/main/java/bgu/spl/net/srv/NonBlockingConnectionHandler.java:106-126 | in every interleaving, with channels being closed, also with a send between the emptiness test and the setting of `OP_READ`: a non-empty write queue of an open connection has WRITE interest or a request for it under way; a waiting selector task will wake the selector, unless `serve` is over; a selector asleep undisturbed leaves no request, and no such queue without WRITE interest |
| `WriteSide.StepKeepsInterest` | server/src/main/java/bgu/spl/net/srv/Reactor.java:82-92 | each of the fourteen steps keeps the hand-over of WRITE interest |
| `WriteSide.StepKeepsWakeup` | server/src/main/java/bgu/spl/net/srv/Reactor.java:53-54 | each step keeps that a waiting selector task will be run |
| `WriteSide.SentIsPrefixOfReplies` | server/src/main/java/bgu/spl/net/srv/NonBlockingConnectionHandler.java:106-126 | bytes sent and then the bytes still queued are all replies encoded in enqueue order, whatever the partial writes; what a peer can read of them is a prefix of the replies, and all of them once the queue is empty |
| `WriteSide.ServeEndsIff` | server/src/main/java/bgu/spl/net/srv/Reactor.java:82-92 | `interestOps` throws on the key of a closed channel, out of `serve`; over any schedule that end has come or is certain if and only if some step came too late: a reply queued for a closed connection, or a close made while a request for the connection was still under way |
| `WriteSide.StepFatal` | server/src/main/java/bgu/spl/net/srv/Reactor.java:87-91 | one step makes that end certain exactly if it came too late |
| `WriteSide.LastReplyEndsServe` | server/src/main/java/bgu/spl/net/srv/NonBlockingConnectionHandler.java:121-124 | a schedule in which no reply comes after its connection was closed and `serve` ends all the same: the selector writes a last reply and closes before the worker has asked for WRITE interest |
| `Draining.WritesDrain` | server/src/main/java/bgu/spl/net/srv/Reactor.java:124-128 | from any state of any run: once replies and reading stop and sockets take bytes, no schedule of senders and selector has more steps than a measure of bytes, senders, tasks and interest; one that cannot go on has sent every byte of every reply on every open connection and left neither task nor interest behind, unless a request for a closed channel was made: then `serve` is over |
| `Draining.StepWorks` | server/src/main/java/bgu/spl/net/srv/NonBlockingConnectionHandler.java:106-126 | every step of such a schedule lowers the measure, also when a reply had overtaken the selector before it tested the queue again |
| `Draining.SomeStepWorks` | server/src/main/java/bgu/spl/net/srv/NonBlockingConnectionHandler.java:106-126 | as long as a sender or the selector is under way, or a connection has WRITE interest, such a step exists |
| `Finishing.EveryScheduleEnds` | server/src/main/java/bgu/spl/net/srv/Reactor.java:51-69 | the whole reactor: from any state of any run, once nothing more is read and sockets take bytes, no schedule of workers, senders and selector goes on for ever, however many replies each frame causes |
| `Finishing.EndIsComplete` | server/src/main/java/bgu/spl/net/srv/Reactor.java:51-69 | a schedule that cannot go on has processed every frame of all that was read, queued every reply, and sent every byte on every open connection, unless `serve` is over, which it is exactly if a request for a closed channel was made |
| `Finishing.StepWorks` | server/src/main/java/bgu/spl/net/srv/NonBlockingConnectionHandler.java:67-82 | every step lowers tasks, then bytes, then replies, then writing work, each of which may cause any amount of the next |
| `Reactor.AlwaysInOrder` | server/src/main/java/bgu/spl/net/srv/Reactor.java:39-80 | reading, processing and writing joined on one selector and N workers: at every moment a connection's frames are processed in order, the replies its frames cause are queued in order and none twice, and the bytes sent to a connection are a prefix of the replies queued for it |
| `Reactor.RestIsComplete` | server/src/main/java/bgu/spl/net/srv/Reactor.java:39-80 | when workers and selector are at rest every complete frame has been processed, every reply queued, every byte sent or waiting on a connection that is closed or has WRITE interest, and every read buffer is back in the pool |
| `Reactor.StepKeepsInv` | server/src/main/java/bgu/spl/net/srv/Reactor.java:108-128 | each move of the joined machine keeps the invariants of both halves and the order of replies |
| `ReactorRuns.ServesARun` | server/src/main/java/bgu/spl/net/srv/NonBlockingConnectionHandler.java:67-82 | with the protocol in the workers: whatever the schedule, chunking and partial writes, the frames processed are a run of the session machine, each connection's frames in it are the first of those read from it, the messages and answers that its frames cause are queued as that run makes them, in order, and the bytes sent to a connection are the beginning of those queued |
| `ReactorRuns.RestIsServed` | server/src/main/java/bgu/spl/net/srv/NonBlockingConnectionHandler.java:67-82 | at rest that run has seen every complete frame, all it answers has been queued, and is sent or waits under WRITE interest |
| `ReactorRuns.StepKeeps` | server/src/main/java/bgu/spl/net/srv/Reactor.java:51-69 | accepting, both ways of closing, each byte and each move of the reactor keep that |
| `Endings.FinishedIsClosed` | server/src/main/java/bgu/spl/net/srv/NonBlockingConnectionHandler.java:121-124 | when the reactor is at rest with nothing left to write, every connection whose protocol wants to terminate has been closed, its handler is gone for good, and the close took its login out of the tables; `shouldTerminate` may be asked before the worker sets it |
| `Endings.StepWillClose` | server/src/main/java/bgu/spl/net/srv/NonBlockingConnectionHandler.java:106-126 | every step keeps that a finished connection is closed, or has a reply or a request under way, or WRITE interest that the selector is not about to drop |
| `Endings.AnswersAtEnd` | server/src/main/java/bgu/spl/net/api/StompMessagingProtocolImpl.java:93-104 | a frame that makes the protocol want to terminate is answered, which is what brings the selector back |
| `Wire.FramesAndRest` | server/src/main/java/bgu/spl/net/impl/echo/LineMessageEncoderDecoder.java:13-28 | every byte stream is its frames, each closed by a NUL, and a NUL-free rest |
| `Wire.FramesUnique` | server/src/main/java/bgu/spl/net/impl/echo/LineMessageEncoderDecoder.java:26-28 | whatever NUL-free messages were encoded are exactly the frames read |
| `Wire.FramesGrow` | server/src/main/java/bgu/spl/net/impl/echo/LineMessageEncoderDecoder.java:13-24 | more input only adds frames |
| `Wire.LineMessageEncoderDecoder.DecodeNextByte` | server/src/main/java/bgu/spl/net/impl/echo/LineMessageEncoderDecoder.java:13-23 | on each byte: a message exactly on a NUL, namely the bytes since the last one; an exception exactly when a frame outgrows 2^30 bytes, with nothing changed; `bytes[..len]` is always the unfinished frame and the capacity a doubling of 1024 |
| `Wire.LineMessageEncoderDecoder.GrowthIsCheap` | server/src/main/java/bgu/spl/net/impl/echo/LineMessageEncoderDecoder.java:30-33 | over the whole input growth copies the capacity less 1024 bytes, and the capacity, once grown, is less than twice the longest frame |
| `Wire.LineMessageEncoderDecoder.Grow` | server/src/main/java/bgu/spl/net/impl/echo/LineMessageEncoderDecoder.java:30-33 | `len * 2` in 32 bits doubles the array, and turns negative exactly at 2^30 |
| `Wire.LineMessageEncoderDecoder.PopString` | server/src/main/java/bgu/spl/net/impl/echo/LineMessageEncoderDecoder.java:38-44 | yields the bytes since the last NUL and starts over |
| `Transfers.NonBlockingConnectionHandler.RunReadTask` | server/src/main/java/bgu/spl/net/srv/NonBlockingConnectionHandler.java:67-82 | while others send to the connection, the selector writes and anything happens to the shared tables: the frames that a buffer completes are turns of the connection's own protocol, one after another; the bytes for the socket grow by their encoded answers in order, among what others queue before each; their messages go out; it stops early only if `process` throws or a frame outgrows 2^30 bytes |
| `Transfers.NonBlockingConnectionHandler.TakeFrame` | server/src/main/java/bgu/spl/net/srv/NonBlockingConnectionHandler.java:71-77 | one frame is one turn; the bytes due grow by what others queued meanwhile and then its answer; WRITE interest is asked for if there is one |
| `Serving.TakeTurn` | server/src/main/java/bgu/spl/net/srv/NonBlockingConnectionHandler.java:71-72 | `process` after any interference by other threads: the turn found the protocol object as it was left, its state, answer and exception are those of the frame, its messages were handed out |
| `Transfers.QueueGrows` | server/src/main/java/bgu/spl/net/srv/NonBlockingConnectionHandler.java:74 | queued replies add exactly the bytes of the encoded replies |
| `Transfers.NonBlockingConnectionHandler.ContinueWrite` | server/src/main/java/bgu/spl/net/srv/NonBlockingConnectionHandler.java:106-126 | others may queue before every emptiness test: nothing is lost, repeated or reordered; if nobody does, what stays queued is fixed by how much the socket takes per write; WRITE interest is dropped exactly when the queue is found empty twice and the protocol is not finished, and the connection closed and taken out of the shared tables exactly when it is |
| `Transfers.NonBlockingConnectionHandler.Close` | server/src/main/java/bgu/spl/net/srv/NonBlockingConnectionHandler.java:91-100 | the connection's login, memberships and handler leave the tables, then the channel is closed |
| `Transfers.NonBlockingConnectionHandler.WriteAll` | server/src/main/java/bgu/spl/net/srv/NonBlockingConnectionHandler.java:107-119 | the loop ends at a short write with bytes left, or with an empty queue; all bytes of the old queue and of what others added are sent or queued, in order |
| `Transfers.NonBlockingConnectionHandler.WriteTop` | server/src/main/java/bgu/spl/net/srv/NonBlockingConnectionHandler.java:109-115 | one write of the oldest buffer: what went out and what stays, and whether it was short |
| `Transfers.RoomForAll` | server/src/main/java/bgu/spl/net/srv/NonBlockingConnectionHandler.java:107-115 | a socket that takes every buffer whole empties the queue |
| `Transfers.NonBlockingConnectionHandler.Send` | server/src/main/java/bgu/spl/net/srv/NonBlockingConnectionHandler.java:143-148 | the message is encoded and queued last, the bytes due grow by just its encoding, and WRITE interest is asked for |
| `Transfers.ConnectionHandler.GetBytes` | client/src/ConnectionHandler.cpp:43-57 | whatever the sizes of the reads: succeeds exactly when enough bytes come before the end of the stream, and takes exactly those |
| `Transfers.ConnectionHandler.SendBytes` | client/src/ConnectionHandler.cpp:59-73 | whatever the sizes of the writes: a prefix goes out, all of it exactly on success, and it succeeds if no error comes first |
| `Transfers.ConnectionHandler.SendFrameAscii` | client/src/ConnectionHandler.cpp:103-107 | frame and delimiter go out whole exactly on success |
| `Transfers.ConnectionHandler.GetFrameAscii` | client/src/ConnectionHandler.cpp:84-101 | consumes through the next NUL and appends what precedes it; fails exactly without one |
| `Transfers.ConnectionHandler.GetAllFrames` | client/src/ConnectionHandler.cpp:84-101 | reading frame by frame yields exactly the frames of the stream |
| `Blocking.BlockingConnectionHandler.Run` | server/src/main/java/bgu/spl/net/srv/BlockingConnectionHandler.java:46-55 | with other threads at the shared tables: the frames processed are the first of the stream, none after termination is wanted, and all of them at the end of the stream; the socket gets the answers of exactly those turns, in order, and their messages go out |
| `Blocking.BlockingConnectionHandler.ServeByte` | server/src/main/java/bgu/spl/net/srv/BlockingConnectionHandler.java:47-54 | one byte: at most one turn, its answer written |
| `StompText.BuildResponse` | server/src/main/java/bgu/spl/net/api/StompMessagingProtocolImpl.java:257-282 | the loop builds the frame text `Response` |
| `StompText.ParseHeaders` | server/src/main/java/bgu/spl/net/api/StompMessagingProtocolImpl.java:212-223 | the loop builds `HeaderMap` |
| `StompText.LastHeaderWins` | server/src/main/java/bgu/spl/net/api/StompMessagingProtocolImpl.java:212-223 | a key maps to a value exactly when some header line defines it so and no later line defines the key again |
| `StompText.CutOfPrinted` | server/src/main/java/bgu/spl/net/api/StompMessagingProtocolImpl.java:31-41 | cutting a frame put together from a command, at least one header line and a body, blank lines in it included, gives those back |
| `StompText.CutOfBareCommand` | server/src/main/java/bgu/spl/net/api/StompMessagingProtocolImpl.java:31-41 | a command without headers has a null header array |
| `StompText.CutWithoutBlankLine` | server/src/main/java/bgu/spl/net/api/StompMessagingProtocolImpl.java:31-41 | a text without a blank line is all head and has no body |
| `StompText.SlashIsBlank` | server/src/main/java/bgu/spl/net/api/StompMessagingProtocolImpl.java:112 | a slash in a destination counts as a blank |
| `StompText.ResponseRoundTrip` | server/src/main/java/bgu/spl/net/api/StompMessagingProtocolImpl.java:257-282 | what the server prints it would itself cut into the same command and headers, and the body with one newline more |
| `StompText.FrameRoundTrip` | server/src/main/java/bgu/spl/net/api/StompMessagingProtocolImpl.java:212-282 | for distinct colon-free trimmed keys the parsed header map holds exactly the entries printed |
| `StompText.SubscribeArrives` | client/src/KeyboardHandler.cpp:117 | the client's SUBSCRIBE reaches the server with its destination, id and receipt |
| `Commands.ExitArrives` | client/src/KeyboardHandler.cpp:120-127 | the client's UNSUBSCRIBE reaches the server with its id and receipt |
| `Commands.LogoutArrives` | client/src/KeyboardHandler.cpp:198-201 | the client's DISCONNECT reaches the server with its receipt |
| `Commands.LoginArrives` | client/src/KeyboardHandler.cpp:96 | the client's CONNECT reaches the server with login and passcode |
| `Connections.ConnectionsImpl.ConnectUser` | server/src/main/java/bgu/spl/net/srv/ConnectionsImpl.java:17-33 | the scanning loop logs in exactly a connection without a user under a name nobody has |
| `Connections.ConnectionsImpl.ConnectHandler` | server/src/main/java/bgu/spl/net/srv/ConnectionsImpl.java:35-40 | the new handler is stored under the counter's value, which is then raised |
| `Connections.ConnectionsImpl.SubscribeChannel` | server/src/main/java/bgu/spl/net/srv/ConnectionsImpl.java:49-61 | both indexes are updated, or neither if the user is a member; the empty maps are put in either way |
| `Connections.ConnectionsImpl.GetSubscriptionId` | server/src/main/java/bgu/spl/net/srv/ConnectionsImpl.java:63-74 | some id of the user for the channel, or the empty string exactly if there is none |
| `Connections.ConnectionsImpl.GetConnectionIdForUser` | server/src/main/java/bgu/spl/net/srv/ConnectionsImpl.java:103-111 | a connection whose user is that very string object, or -1 exactly if there is none |
| `Connections.ConnectionsImpl.DisconnectUser` | server/src/main/java/bgu/spl/net/srv/ConnectionsImpl.java:113-121 | the login and all memberships and ids of its user go, and channels left empty |
| `Connections.ConnectionsImpl.LeaveAllChannels` | server/src/main/java/bgu/spl/net/srv/ConnectionsImpl.java:116-118 | the loop takes the user out of every channel and removes exactly those left empty |
| `Connections.ConnectionsImpl.UnsubscribeChannelById` | server/src/main/java/bgu/spl/net/srv/ConnectionsImpl.java:123-134 | succeeds exactly if the id leads to a channel the user is in; then both indexes lose it |
| `Connections.ConnectionsImpl.UnsubscribeChannelByName` | server/src/main/java/bgu/spl/net/srv/ConnectionsImpl.java:137-152 | removes the user from the channel only, and an emptied channel |
| `Connections.ConnectionsImpl.DisconnectClient` | server/src/main/java/bgu/spl/net/srv/ConnectionsImpl.java:155-160 | handler and login of the connection go |
| `Connections.ConnectionsImpl.Send` | server/src/main/java/bgu/spl/net/srv/ConnectionsImpl.java:76-101 | a member's message goes, in the order the key set is visited, to every other member that can be located, with consecutive message ids; it throws exactly at a member whose connection has no handler, after the messages before and with a number used up; nothing happens for a sender who is not a member |
| `StompProtocol.UserManagement.ValidateUser` | server/src/main/java/bgu/spl/net/srv/UserManagement.java:12-25 | registers a new name with its passcode, compares otherwise |
| `StompProtocol.StompMessagingProtocolImpl.Process` | server/src/main/java/bgu/spl/net/api/StompMessagingProtocolImpl.java:28-63 | cutting, dispatch and answer: the shared state, the answer text, the messages sent and the exceptions are those of the frame's specification |
| `StompProtocol.StompMessagingProtocolImpl.HandleConnect` | server/src/main/java/bgu/spl/net/api/StompMessagingProtocolImpl.java:70-106 | login with validation, both refusals, the object stored in both places |
| `StompProtocol.StompMessagingProtocolImpl.HandleSubscribe` | server/src/main/java/bgu/spl/net/api/StompMessagingProtocolImpl.java:107-134 | subscription, refusal with expulsion, and the exception for a null user |
| `StompProtocol.StompMessagingProtocolImpl.HandleUnsubscribe` | server/src/main/java/bgu/spl/net/api/StompMessagingProtocolImpl.java:135-161 | unsubscription, or refusal with expulsion |
| `StompProtocol.StompMessagingProtocolImpl.HandleDisconnect` | server/src/main/java/bgu/spl/net/api/StompMessagingProtocolImpl.java:162-177 | graceful shutdown, only with a receipt header |
| `StompProtocol.StompMessagingProtocolImpl.HandleSend` | server/src/main/java/bgu/spl/net/api/StompMessagingProtocolImpl.java:178-204 | publication by a member, refusal with expulsion otherwise |
| `Commands.LoginTakesEffect` | server/src/main/java/bgu/spl/net/api/StompMessagingProtocolImpl.java:70-106 | from the frame text: a login is accepted exactly with the passcode on record or a new name, on a connection without a login, under a name nobody holds; it then logs that connection in, else changes no login and ends the session with its reason; a new name is recorded either way |
| `Commands.JoinTakesEffect` | server/src/main/java/bgu/spl/net/api/StompMessagingProtocolImpl.java:107-134 | from the frame text: one subscription more, in both indexes, and none changed; a member is refused and loses login, handler and all memberships |
| `Commands.ExitTakesEffect` | server/src/main/java/bgu/spl/net/api/StompMessagingProtocolImpl.java:135-161 | from the frame text: for an id of the sender's exactly that membership ends, in both indexes; for any other it is refused and loses login, handler and all memberships |
| `Commands.LogoutTakesEffect` | server/src/main/java/bgu/spl/net/api/StompMessagingProtocolImpl.java:162-177 | from the frame text: handler, login and memberships of the connection are gone, of others none, and the session ends |
| `Commands.ReportTakesEffect` | server/src/main/java/bgu/spl/net/api/StompMessagingProtocolImpl.java:178-206 | from the frame text: published exactly if the sender is a member of the channel the server makes of the name; otherwise refused, with the loss of login, handler and memberships |
| `Commands.OtherCommands` | server/src/main/java/bgu/spl/net/api/StompMessagingProtocolImpl.java:28-69 | any other command is ignored and not answered; one of the five without a header line throws |
| `Receipts.RefusalShown` | client/src/KeyboardHandler.cpp:286-289 | an ERROR as the client reads it: the reason is shown and the connection closed |
| `Receipts.RefusalQuotes` | server/src/main/java/bgu/spl/net/api/StompMessagingProtocolImpl.java:224-256 | an ERROR's body quotes the refused frame between two rules, and cutting the quotation gives its parts again |
| `Receipts.LoginAnswered` | server/src/main/java/bgu/spl/net/api/StompMessagingProtocolImpl.java:84-92 | an accepted login is answered CONNECTED, which the client shows as such |
| `Receipts.ConfirmationIs` | server/src/main/java/bgu/spl/net/api/StompMessagingProtocolImpl.java:113-118 | what the first header of a RECEIPT says for each command |
| `Consistency.SubscribeKeepsInverse` | server/src/main/java/bgu/spl/net/srv/ConnectionsImpl.java:54-58 | a new subscription keeps the two indexes inverse if and only if its id is not already one of the user's |
| `Consistency.ReusedIdBreaksIndex` | server/src/main/java/bgu/spl/net/srv/ConnectionsImpl.java:55-57 | the concrete failure: one id used for two channels leaves the first channel's entry without its counterpart |
| `Consistency.UnsubscribeKeeps` | server/src/main/java/bgu/spl/net/srv/ConnectionsImpl.java:123-152 | unsubscribing keeps all table invariants |
| `Consistency.DisconnectKeeps` | server/src/main/java/bgu/spl/net/srv/ConnectionsImpl.java:113-121 | disconnecting keeps all table invariants, for any connection |
| `Consistency.SubscribeKeyed` | server/src/main/java/bgu/spl/net/srv/ConnectionsImpl.java:54-58 | a new member's key stays that of a logged-in connection if and only if someone is logged in under that object |
| `Consistency.ConnectUserKeyed` | server/src/main/java/bgu/spl/net/srv/ConnectionsImpl.java:17-33 | a login keeps the lookup invariant if and only if its connection has a handler |
| `Consistency.IdentityLookupAgrees` | server/src/main/java/bgu/spl/net/srv/ConnectionsImpl.java:103-111 | whatever else is wrong with the tables, for every member of every channel the scan by reference finds the one connection that a scan by value finds |
| `Consistency.SubscriptionIdAgrees` | server/src/main/java/bgu/spl/net/srv/ConnectionsImpl.java:63-74 | the reverse scan finds exactly the id the channel keeps for the user |
| `Sessions.OneConnectionPerName` | server/src/main/java/bgu/spl/net/srv/ConnectionsImpl.java:17-33 | in any run, whatever clients send and whenever, a name is held by at most one connection |
| `Sessions.StepKeepsSound` | server/src/main/java/bgu/spl/net/srv/ConnectionsImpl.java:17-160 | any event keeps that, and that an open connection's protocol object knows its login |
| `Sessions.LookupsAgree` | server/src/main/java/bgu/spl/net/srv/ConnectionsImpl.java:76-111 | in any run whose frames come in time, whatever ids clients choose and whether or not they log in: each member is located by reference and by name at the same one connection, which has a handler, so no `send` throws |
| `Sessions.StepKeepsKeyed` | server/src/main/java/bgu/spl/net/srv/ConnectionsImpl.java:17-160 | an event keeps what that rests on if and only if it comes in time: no login on a connection without a handler, no new member under a login that is gone |
| `Sessions.StoppingIsTimely` | server/src/main/java/bgu/spl/net/srv/BlockingConnectionHandler.java:46 | a server that takes no frame of a connection that was closed or wants to terminate is never late, whatever its clients send |
| `Sessions.SubscribeAfterClose` | server/src/main/java/bgu/spl/net/srv/NonBlockingConnectionHandler.java:91-97 | the concrete failure in the reactor: a SUBSCRIBE read before the connection is closed and processed after makes a member of a user who is not logged in |
| `Sessions.ConnectAfterClose` | server/src/main/java/bgu/spl/net/srv/NonBlockingConnectionHandler.java:91-97 | a CONNECT likewise leaves a login without a handler |
| `Sessions.SubscribeAfterDisconnect` | server/src/main/java/bgu/spl/net/api/StompMessagingProtocolImpl.java:171-172 | a SUBSCRIBE run after a DISCONNECT keeps the tables consistent if and only if somebody is in its channel |
| `Sessions.LoginOutlives` | server/src/main/java/bgu/spl/net/api/StompMessagingProtocolImpl.java:93-104 | when a frame makes a connection want to terminate, its login stays in the tables if and only if the frame is a CONNECT and the connection was logged in |
| `Sessions.NameStaysTaken` | server/src/main/java/bgu/spl/net/srv/ConnectionsImpl.java:17-33 | nobody can log in under such a name until that connection does something more or is closed |
| `Sessions.CloseReleases` | server/src/main/java/bgu/spl/net/srv/NonBlockingConnectionHandler.java:91-100 | closing a connection frees its name: any connection not logged in may then take it |
| `Sessions.ClosedStaysOut` | server/src/main/java/bgu/spl/net/srv/NonBlockingConnectionHandler.java:91-100 | the handler of a closed connection does not come back, whatever frames are still processed |
| `Sessions.StepKeepsConsistent` | server/src/main/java/bgu/spl/net/srv/ConnectionsImpl.java:17-160 | any event keeps all four tables consistent if and only if it comes in time and meets the assumption about subscription ids |
| `Sessions.SubscribeBeforeConnect` | server/src/main/java/bgu/spl/net/api/StompMessagingProtocolImpl.java:107-112 | the concrete failure: SUBSCRIBE as first frame throws and leaves a channel with no members |
| `Sessions.TablesAgree` | server/src/main/java/bgu/spl/net/srv/ConnectionsImpl.java:10-13 | after any run of frames in time with ids as assumed, closings at any moment included: the two subscription indexes are inverse, no channel is empty, subscribers are logged in, logged-in connections have handlers |
| `Sessions.PasswordsNeverChange` | server/src/main/java/bgu/spl/net/srv/UserManagement.java:12-25 | in any run a stored passcode is never changed |
| `Sessions.OnePasscodePerName` | server/src/main/java/bgu/spl/net/srv/UserManagement.java:12-25 | any two successful logins for a name in any run carried the same passcode |
| `Logins.AcceptedIff` | server/src/main/java/bgu/spl/net/srv/UserManagement.java:12-25 | over any run: a CONNECT is accepted if and only if its connection has no login, nobody holds the name, and no CONNECT for the name came before or the first one gave the same passcode; accepted, it logs in just that connection under the name, refused, it changes no login and ends the session |
| `Logins.PasscodesRecorded` | server/src/main/java/bgu/spl/net/srv/UserManagement.java:12-25 | over any run the password table holds just the names a CONNECT was for, each with the first passcode given |
| `Sessions.MessageIdsDistinct` | server/src/main/java/bgu/spl/net/srv/ConnectionsImpl.java:42-46 | no two messages of any run have the same id, a `send` that throws included |
| `Sessions.NumberedFromZero` | server/src/main/java/bgu/spl/net/srv/ConnectionsImpl.java:35-46 | over any run connections and messages are numbered from 0 on, without a gap but for the number lost where `send` throws |
| `Sessions.BrokenSend` | server/src/main/java/bgu/spl/net/srv/ConnectionsImpl.java:82-100 | `send` throws only at another member found at a connection that has lost its handler, after one message each to distinct other members |
| `Sessions.StrayMayBreak` | server/src/main/java/bgu/spl/net/srv/ConnectionsImpl.java:82-100 | and where there is such a member it may throw before any message |
| `Refinement.RunRefines` | server/src/main/java/bgu/spl/net/api/StompMessagingProtocolImpl.java:28-204 | over any run of frames in time with ids as assumed, the tables are those of a plain server with a login relation, a set of (user, channel, id) and the name each connection remembers, and every frame is accepted, refused for the same reason, ignored or throws exactly as there |
| `Refinement.FanOutExact` | server/src/main/java/bgu/spl/net/srv/ConnectionsImpl.java:82-101 | a published frame reaches each subscriber of its channel but the sender exactly once, under the subscriber's own id, and nobody else |
| `Refinement.StepRefines` | server/src/main/java/bgu/spl/net/srv/ConnectionsImpl.java:17-160 | each event has the effect and verdict of the plain server's step |
| `Events.PrintInfo` | client/src/KeyboardHandler.cpp:139-142 | the loop prints the entries in key order |
| `Events.PrintBody` | client/src/KeyboardHandler.cpp:143 | the text of a report |
| `Events.ParseEvent` | client/src/event.cpp:69-119 | the parsing loop computes `Parsed`, exceptions included |
| `Events.ReadDescription` | client/src/event.cpp:107-110 | the inner loop takes all lines that are left |
| `Text.GetLine` | client/src/event.cpp:62-68 | one `getline`: the next piece, and what is left for the next call |
| `Text.StoiOfIntText` | client/src/KeyboardHandler.cpp:143 | printing an int and reading it with `stoi` is the identity exactly in the 32-bit range, else the range exception |
| `Text.StoiReads` | client/src/event.cpp:100 | `std::stoi` reads a 32-bit number after any blanks, with or without a plus sign, and whatever follows it; others are out of range |
| `Text.StoiThrows` | client/src/event.cpp:100 | it throws where no number starts |
| `Text.NumbersLook` | client/src/KeyboardHandler.cpp:109 | numbers are printed decimally, most significant digit first |
| `Text.SplitJavaIs` | server/src/main/java/bgu/spl/net/api/StompMessagingProtocolImpl.java:34-41 | Java's `split` keeps the pieces up to the last non-empty one, and the whole text if there is nothing to cut |
| `Text.BlanksAre` | client/src/KeyboardHandler.cpp:295-300 | Java trims all characters up to code 32, the client its list of six |
| `Text.TrimCore` | client/src/KeyboardHandler.cpp:295-300 | the trimmed core is what is left, whatever blanks surround it |
| `Text.TrimPadded` | client/src/KeyboardHandler.cpp:295-300 | blanks put around a string do not survive trimming |
| `Text.ContainsIff` | client/src/KeyboardHandler.cpp:39 | `find` succeeds exactly when the text occurs somewhere |
| `Relay.KeptIff` | client/src/event.cpp:81-86 | a field survives its line if and only if it holds no colon |
| `Relay.KeptIs` | client/src/event.cpp:78-105 | a colon at the end of a value is dropped, one inside costs the whole value |
| `Relay.BodyLooks` | client/src/KeyboardHandler.cpp:134-143 | the body of a report, line by line |
| `Relay.ReportFieldsRead` | client/src/event.cpp:84-105 | `city` and `event name` lines are read into those fields, and nothing else changes |
| `Relay.OriginFieldsRead` | client/src/event.cpp:84-105 | so are `user` and `channel name` |
| `Relay.DateRead` | client/src/event.cpp:98-101 | so is `date time` |
| `Relay.RelayRoundTrip` | client/src/event.cpp:69-119 | after print, relay and parse: date exact, description with two newlines more, user, city and name exact if and only if colon-free, the information map exactly the entries padded by a blank each, and one entry that was not there |
| `Reports.CutOfMessage` | client/src/KeyboardHandler.cpp:213-237 | the receiver cuts a relayed message into the destination and the body as the server put them together |
| `Reports.MessageReads` | server/src/main/java/bgu/spl/net/api/StompMessagingProtocolImpl.java:207-211 | the headers of a message as read: subscription, number and channel, each under its own name |
| `Reports.AnswerWithoutBlankLine` | client/src/KeyboardHandler.cpp:213-214 | an answer without a blank line: its lines, and as body all but its first character |
| `Reports.CutOfReport` | client/src/KeyboardHandler.cpp:143 | the server reads a report as a SEND on the normalised channel with the printed event as body |
| `Reports.ReportArrives` | client/src/KeyboardHandler.cpp:225-239 | from keyboard to report list: the receiver gets the relayed event under the server's channel name, whatever the subscription and message ids |
| `Reports.LandingIsLine` | server/src/main/java/bgu/spl/net/api/StompMessagingProtocolImpl.java:183 | the server's name for a single-line channel is a single line |
| `Reports.SameNameAtBothEnds` | client/src/KeyboardHandler.cpp:236-238 | reporter and receiver file a report under one channel name if and only if the name is trimmed and has no slash |
| `Reports.CountMarked` | client/src/KeyboardHandler.cpp:29-65 | the two nested counting loops compute `Count` |
| `Reports.MarksIff` | client/src/KeyboardHandler.cpp:39 | an entry counts exactly if the word occurs in its trimmed key and `true` in its trimmed value |
| `Reports.MarksSurvive` | client/src/KeyboardHandler.cpp:36-41 | padding hides no mark and the extra entry adds none |
| `Reports.StatisticsSurvive` | client/src/KeyboardHandler.cpp:29-65 | total and counts over the received list, reversed and reparsed, are those over the sent list, for any marking word |
| `Receiving.ReportsReceived` | client/src/StompClient.cpp:47-49 | after the relayed messages of a whole report command the receiver's reports have grown by the relayed copies, last first, under the reporter's name, and nothing else has changed |
| `Receiving.SameStatistics` | client/src/KeyboardHandler.cpp:29-65 | the reporter's and the receiver's lists grow by the same total and the same count of any word |
| `Deliveries.ReportsRelayed` | server/src/main/java/bgu/spl/net/api/StompMessagingProtocolImpl.java:178-205 | over any run of well-behaved clients, whatever else happens meanwhile: the messages that the frames of a `report` cause for a listening member are their relayed copies, one for each, in the order sent |
| `Deliveries.StatisticsArrive` | client/src/KeyboardHandler.cpp:29-65 | with that, from keyboard to statistics: after a `report` the reporter's and the listener's lists have grown by the same total and the same count of any word |
| `Deliveries.FanOutTexts` | server/src/main/java/bgu/spl/net/srv/ConnectionsImpl.java:82-100 | the texts that go out for a published frame, as read from their headers: to each other subscriber one that names its own subscription id and the channel, and to nobody else |
| `Deliveries.TextsRead` | server/src/main/java/bgu/spl/net/api/StompMessagingProtocolImpl.java:207-211 | over any run, whatever clients send: cutting the text of a message gives the subscription, number and channel it was made for |
| `Deliveries.NumbersReadDistinct` | server/src/main/java/bgu/spl/net/srv/ConnectionsImpl.java:42-46 | no two message texts of a run carry the same message-id |
| `ReactorTexts.QueuedRead` | server/src/main/java/bgu/spl/net/srv/NonBlockingConnectionHandler.java:143-148 | the same of the messages queued in any run of the reactor |
| `ReactorTexts.RecipientsQueued` | server/src/main/java/bgu/spl/net/srv/ConnectionsImpl.java:82-100 | with well-behaved clients, of a frame published in a reactor run each other subscriber's queue gets a message that reads as its own subscription id, and no other queue gets any |
| `ReactorTexts.QueuedNumbersDistinct` | server/src/main/java/bgu/spl/net/srv/ConnectionsImpl.java:42-46 | whatever the schedule, no two messages queued carry the same message-id |
| `Deliveries.OneForListener` | server/src/main/java/bgu/spl/net/srv/ConnectionsImpl.java:82-100 | the fan-out of a frame has exactly one message for a listening member's connection, under its own subscription id |
| `IdOrigins.RunIdsArePlain` | server/src/main/java/bgu/spl/net/api/StompMessagingProtocolImpl.java:212-223 | over any run of frames read from texts every subscription id kept is a trimmed line |
| `Summary.BeforeIsStrictWeakOrder` | client/src/KeyboardHandler.cpp:165-170 | the comparator is irreflexive, transitive, and its ties are transitive and are exactly equal date and name |
| `Summary.SortedByDateAndName` | client/src/KeyboardHandler.cpp:164-169 | a list is sorted exactly if dates never decrease and, among equal dates, no later name is smaller; smaller by the first character that differs, or by being a proper prefix |
| `Ordering.LessIs` | client/src/KeyboardHandler.cpp:164-169 | the recursive string comparison says just that |
| `Summary.SummaryLists` | client/src/KeyboardHandler.cpp:176-187 | the file written: channel, total and the two counts under their labels, then each report of the list under its number with its city, date, name and excerpt, in that order of dates and names |
| `Summary.ExcerptIs` | client/src/KeyboardHandler.cpp:178-182 | a description longer than 27 characters is cut there and marked with three dots |
| `Summary.WriteSummary` | client/src/KeyboardHandler.cpp:173-185 | the writing loop computes `SummaryText` |
| `Summary.LinesDeterminedIff` | client/src/KeyboardHandler.cpp:164-185 | every order `std::sort` may leave gives the same report lines if and only if tied reports look alike |
| `Summary.SummaryDetermined` | client/src/KeyboardHandler.cpp:164-185 | then the text is the same for every order of arrival and every outcome of sorting |
| `Summary.DistinctReportsDetermined` | client/src/KeyboardHandler.cpp:164-185 | in particular for reports distinct in date and name |
| `Summary.InsertionSortSorts` | client/src/KeyboardHandler.cpp:164-170 | a sorted permutation always exists |
| `Client.KeyboardHandler.CommandToFrame` | client/src/KeyboardHandler.cpp:67-208 | the frames sent and the new state of every command, address and connection included, and the summary written exactly when there is something to write; it throws exactly for a login whose port is no number |
| `Client.KeyboardHandler.Obey` | client/src/KeyboardHandler.cpp:79-202 | frames and state of each command, short of the summary |
| `Client.KeyboardHandler.JoinChannel` | client/src/KeyboardHandler.cpp:108-118 | a channel without an id gets the next number; the SUBSCRIBE carries the channel's id |
| `Client.KeyboardHandler.ReportEvents` | client/src/KeyboardHandler.cpp:129-151 | each event of a joined channel is sent and filed under the own name; the lookup leaves an empty entry for an unknown channel |
| `Client.KeyboardHandler.SummariseReports` | client/src/KeyboardHandler.cpp:152-197 | writes for a channel with an id and a user with reports, and keeps them sorted |
| `Client.KeyboardHandler.TranslateAnswer` | client/src/KeyboardHandler.cpp:210-294 | the new state and the text shown for every answer, an ERROR closing the connection, and exactly the answers on which it throws or reads out of bounds |
| `Client.KeyboardHandler.TakeMessage` | client/src/KeyboardHandler.cpp:225-239 | a MESSAGE joins the reports of its owner on the channel it names, or throws without a destination or on a bad event |
| `Client.KeyboardHandler.TakeReceipt` | client/src/KeyboardHandler.cpp:240-252 | the receipt's number leads to the command it acknowledges, or out of bounds |
| `Client.KeyboardHandler.TakeCommand` | client/src/KeyboardHandler.cpp:253-283 | exit releases the id and erases the channel's reports, logout ends the session, closes the connection and clears its address, and the user is told |
| `Client.KeyboardHandler.EraseReports` | client/src/KeyboardHandler.cpp:266-274 | the erasing loop removes exactly the channel's reports |
| `CommandLines.CommandsUnderstood` | client/src/KeyboardHandler.cpp:79-202 | the five commands of a user who is logged in, as typed |
| `CommandLines.LoginFirst` | client/src/KeyboardHandler.cpp:79-107 | before a login nothing else is heeded, after one no login |
| `CommandLines.LoginUnderstood` | client/src/KeyboardHandler.cpp:81-86 | host, 16-bit port, user and password of a login line; it throws exactly for a port out of the range of an int |
| `CommandLines.ShortIs` | client/src/KeyboardHandler.cpp:83 | the port is cut to 16 bits, which changes none that fits |
| `Receipts.RightCommandAcknowledged` | client/src/KeyboardHandler.cpp:240-285 | over any run of a client: the server's answer to an accepted `join`, `exit` or `logout` typed earlier makes the client do its part of that very command and say so, whatever was typed and heard between |
| `Receipts.ReceiptReads` | server/src/main/java/bgu/spl/net/api/StompMessagingProtocolImpl.java:257-282 | a RECEIPT as the client cuts it carries the number its frame was sent with |
| `Receipts.ReceiptDoesPart` | client/src/KeyboardHandler.cpp:253-283 | the client's part: after `exit` the channel has no id and no reports of anyone, after `logout` there is no session, connection or address, and nothing else changes |
| `Receipts.ReceiptsStay` | client/src/KeyboardHandler.cpp:108-128 | the commands remembered by number are never forgotten or renumbered |
| `Client.SendLines` | client/src/StompClient.cpp:47-49 | frames leave from the back |
| `ClientRuns.FramesLook` | client/src/KeyboardHandler.cpp:79-202 | the frames of each command, character by character, ids and receipt numbers included |
| `ClientRuns.AfterChanges` | client/src/KeyboardHandler.cpp:79-202 | what a command changes before it is answered: an id only for `join`, reports only for `report`, login, user and address only for `login` |
| `ClientRuns.NothingBeforeLogin` | client/src/KeyboardHandler.cpp:79-107 | over any run, until a login has connected, whatever is typed sends nothing |
| `ClientRuns.ReportDone` | client/src/KeyboardHandler.cpp:129-151 | on a joined channel every event is sent and filed as the user's own; else nothing is |
| `ClientRuns.SummaryDone` | client/src/KeyboardHandler.cpp:152-197 | for a joined channel and a user with reports there, just the named file is written, with counts and reports in order, and the list is kept in that order; otherwise nothing is written or changed |
| `ClientIds.OneChannelPerId` | client/src/KeyboardHandler.cpp:108-118 | over any run of commands and answers, logins and logouts included and in any interleaving, no subscription id is ever sent for two channels |
| `ClientIds.LiveIdsDistinct` | client/src/KeyboardHandler.cpp:112-116 | live ids are distinct per channel and are numbers below the counter |
| `ClientRuns.IdsFromZero` | client/src/KeyboardHandler.cpp:112-116 | over any run ids are given out as 0, 1, 2 and so on, one for each `join` of a channel that has none |
| `ClientIds.StepKeepsBound` | client/src/KeyboardHandler.cpp:108-276 | each command and each answer keeps that |
| `ClientIds.ErrorStrands` | client/src/KeyboardHandler.cpp:286-289 | after an ERROR the client counts as logged in without a connection, and nothing typed gives it another |
| `ClientIds.ConnectedIsReady` | client/src/KeyboardHandler.cpp:276-289 | over any run a client with a connection is logged in |
| `ClientFrames.DeedFromLog` | client/src/KeyboardHandler.cpp:96-201 | of the frames a command sends only SUBSCRIBE subscribes, as the server reads them, and to a channel with the id bound to it |
| `ClientFrames.HeadLine` | server/src/main/java/bgu/spl/net/api/StompMessagingProtocolImpl.java:31-41 | the server takes a frame's first line as its command, whatever follows |
| `ClientFrames.ConnectConnects` | client/src/KeyboardHandler.cpp:96 | the login frame is a CONNECT with headers, whatever the name and passcode |
| `Composition.ClientsDischargeAssumption` | server/src/main/java/bgu/spl/net/srv/ConnectionsImpl.java:54-58 | any number of client processes over any number of connections, frames in flight and answers read late, at a server that stops in time: what the server does is always a run that meets its assumption, and its two indexes stay inverse |
| `Composition.LateFrameBreaks` | server/src/main/java/bgu/spl/net/api/StompMessagingProtocolImpl.java:171-172 | at a server that does not stop in time, the same client's logout followed by a join leaves a channel with no members |
| `Composition.WireBehaves` | server/src/main/java/bgu/spl/net/srv/ConnectionsImpl.java:54-58 | every frame served from the wire meets the assumption |
| `Composition.StepKeeps` | server/src/main/java/bgu/spl/net/srv/BlockingConnectionHandler.java:46-55 | every step of the composed system keeps its invariant |
| `Composition.ConnectStartsEmpty` | server/src/main/java/bgu/spl/net/srv/ConnectionsImpl.java:113-121 | a fresh login has no subscriptions, whoever had the name before |

## Left out

- Sockets, NIO selectors, JSON, files and the console: byte strings, transfer sizes, event lists, and a map of files by path.
- UTF-8: a character is one byte, as for ASCII texts.
- `shutdownNow`, and an `IOException` inside `continueWrite`, which makes the loop retry on a closed channel.
- That a final ERROR or RECEIPT is flushed before the channel is closed in reactor mode: it need not be.
- Interleavings inside one `process` call and inside `ConnectionsImpl` methods: `connectUser`, `connectHandler` and `generateMessageId` read and then write without a lock.
- `connectHandler` and `start` at the head of `run`, and accepting connections: `Sessions` has them as the event `Open`.
- A connection lost in blocking mode: `run` ends without calling `close`, so its login stays; `Sessions` has closing as an event that may or may not come, `Composition` has both endings.
- Wrap-around of the connection and message counters at 2^31.
- Whether a connection comes about: a parameter of `login`.
- The client's two threads and their flags: a typed line or an answer is one step.
- `epoch_to_date`: any function of the int.
- `std::sort`: any sorted permutation; `Client.KeyboardHandler.SortReports` uses an insertion sort in its place.
- Expiry of `WeakHashMap` entries: a handler with tasks is reachable.
- STOMP 1.2 features the code does not have: header escaping, content-length, heart-beats, transactions, ACK.
- `Server`, `BaseServer`, `StompServer`, `main` and `parseEventsFile`: wiring and library calls.
- What `serve` leaves behind once an exception has ended it: workers go on, nothing is read or written any more.
