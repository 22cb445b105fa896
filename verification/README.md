# A verified model of the siot server and its stream decorators

libsiot is an epoll server: one thread accepts connections and dispatches events, a reaper thread
ends idle connections, and a pool of workers runs the callbacks. Services wrap the connections in
decorators that split lines, bound a range of bytes, or hand bytes out again until they are
acknowledged. This project models both halves and proves what they promise.

| file | models |
|---|---|
| `Words.dfy` | unsigned 64-bit words |
| `Lines.dfy` | what line splitting means for a whole string |
| `Streams.dfy` | connections as values: a source under any stack of range readers and acknowledgement buffers |
| `RangeReaders.dfy` | windows on a stream, and the drain that ends them |
| `Acknowledgements.dfy` | redelivery, bounds and automatic acknowledgement |
| `LineBuffers.dfy` | line buffering over any stack |
| `Decorators.dfy` | the decorators as objects with fields, proved to do what the functions above say |
| `Protocol.dfy` | the server as a transition system over all interleavings |
| `ProtocolSteps.dfy` | whose a step is, and what a step leaves alone |
| `ProtocolInvariant.dfy`, `ProtocolSafety.dfy` | its invariant, and what holds in every reachable state |
| `ProtocolRuns.dfy` | what holds over whole runs: events and their callbacks, last uses, news of hang-ups |
| `ProtocolHistory.dfy` | what a connection was accepted as, what may come at any time, and what a sweep of the reaper leaves |
| `DeletedLocks.dfy` | where the dispatcher locks a connection that is already deleted |
| `ProtocolProgress.dfy` | no deadlock with idle reaping off, as long as a worker is left |
| `WorkerDeadlock.dfy` | how deferred shutdowns stop the server, and exactly when |
| `ReaperDeadlock.dfy` | how idle reaping stops the server, and exactly when |
| `DecoratedLocks.dfy`, `Parallel.dfy` | the two locks of a decorated connection, and callbacks at the same time: that such states are reached |
| `Scenarios.dfy` | pieces of runs, to show that what `DeletedLocks.dfy`, `WorkerDeadlock.dfy` and `ReaperDeadlock.dfy` warn of happens |
| `Teardown.dfy` | dequeuing, the shutdown of a stack of layers, and one sweep of the reaper, as objects |

`dafny verify dfyconfig.toml` checks the whole project.

## What is assumed

- A source of bytes is a sequence with a script of arrivals of any size, empty ones included; each
  `Receive` uses up one. After the script the source delivers what it is asked for and reports its
  end. A theorem about every script is a theorem about every chunking, and reading on terminates.
- `Roomy` says that the acknowledgement buffers of a stack are large enough not to throw. Theorems
  name it only where they claim that nothing is thrown.
- Each connection is shut down by one party, through its outermost handle: once a handler has called
  `DeferredShutdown` or a thread shuts the connection down, no *other* thread starts to. That a thread
  does not shut it down twice itself is proved, not assumed.
- A `ReadLock` on a connection that is already deleted is undefined. The model has the step
  (`DanglingReadLock`), lets the dispatcher do nothing after it, and takes it that the others are unharmed.
- Handlers return, and end a connection only with `DeferredShutdown`, as `siot/server.h:157-161` asks.
  Whether the handlers of a service ever call it is part of the configuration (`defers`), like the number of
  workers and `max_idle_`. Only `Shutdown` takes a connection's lock for writing.
- A server that listens has a worker: `epoll_create` refuses 0 (`server.cc:230`). Where a statement rests on that,
  it asks for one.
- The clock does not go backwards and stays below 2^64; `SetMaxIdle` is called before `Listen`.
- `AddDecorators` returns a different handle for every connection. The handles in the map are separate
  stacks that own what they wrap.
- The epoll calls succeed.

A step of the transition system is one action of one thread between two points where another thread
may get in. The steps of a shutdown are Begin (`server.cc:571-572`), Scan (515-517), Acquire (519),
Erase (520-532), then the connection's lock, the lock of the wrapped raw connection for a decorated
one, and the close and delete of `unixsocketconnection.cc:159-162`. The dispatcher's are those of
`server.cc:281-358` (accept), 362-374 (hang-up), 376-388 (error) and 390-411 (data), a worker's those
of `server.cc:474-479`, the reaper's those of `server.cc:427-468`.

## Where code and documentation differ

- `siot/connection.h:55` promises at most `maxlen` bytes. An acknowledgement buffer that already holds
  `maxlen` bytes or more passes on 0, "no limit" (`acknowledgementdecorator.cc:56-58`), and returns more:
  `LimitBindsExactly` says when the promise is kept.
- `siot/linebufferdecorator.h` promises that a line is returned with its ending as LF. A line that ends in
  CR and is written with a bare LF loses that CR: `RoundTrip` says exactly which texts survive.
- `siot/rangereaderdecorator.h` says that `Shutdown` advances to the end of the range; it stops earlier at the
  end of the stream (`rangereaderdecorator.cc:92`), which is what `DrainExact` states.
- `siot/rangereaderdecorator.h` bounds what is read by the size of the range. That holds for callers that stop
  at the first `Receive` in which the wrapped connection throws, and for no others: `WindowBindsExactly`.
- The callbacks of `siot/server.h:105-123` get a connection. On two paths it may be deleted by then:
  `HitsDeletedExactly` says in which configurations, `ReadLockHitsDeleted` in which states. The data path is
  safe, and with idle reaping off and no deferred shutdowns all of them are (`ErrorsAreSafeWithoutDeferral`).
- With idle reaping on, the reaper can stop the whole server for good. When it picks an idle connection,
  some run ends that way if and only if a callback for the connection is outstanding or the dispatcher
  has it in hand before its `ReadLock` (`ReapingCanDoomExactly`); in the first case every run does
  (`ReapingDooms`), and otherwise the shutdown can always be finished (`ReapingFinishes`).
- Deferred shutdowns can stop it too. With idle reaping off, a queued closure is taken in some run if and
  only if some worker is not shutting down a connection with callbacks outstanding or about to be
  (`TakenUnlessAllLost`), and locks that prefer writers change nothing about it; any number of workers can be lost that way (`WorkersCanGetStuck`).

## Model

| member | source | states |
|---|---|---|
| Lines.SplitAppend | linebufferdecorator.cc:65-75 | splitting any two pieces in turn, carrying the tail over, is splitting their concatenation, also between a CR and its LF |
| Lines.TailHasNoLF | linebufferdecorator.cc:66-75 | what is kept back never contains an LF |
| Lines.LinesHaveNoLF | linebufferdecorator.cc:66-75 | no line contains an LF |
| Lines.OneLinePerLF | linebufferdecorator.cc:66-75 | there are as many lines as LFs |
| Lines.SplitWrittenLine | linebufferdecorator.cc:66-75 | a line written with LF or CRLF comes off the front of any text |
| Lines.RoundTrip | linebufferdecorator.cc:65-86 | written lines are read back exactly if and only if none contains an LF and none that ends in CR is ended by a bare LF, in any mixture of endings |
| Lines.Accounting | linebufferdecorator.cc:66-75 | the bytes of a text are those of its lines with an LF each, those of the tail, and one CR for every CRLF |
| Streams.ReceiveDelivers | siot/connection.h:55-69 | every stack of any depth keeps the contract of Receive: the next bytes, at most maxlen of them, and it makes progress or is at its end |
| Streams.RangeDelivers | rangereaderdecorator.cc:52-69 | a range reader keeps that contract if what it wraps does |
| Streams.SourceDelivers | unixsocketconnection.cc:83-103 | a socket's reads, clamped to its unit with 0 for no limit, keep that contract |
| Streams.SourceGivesAll | unixsocketconnection.cc:83-103 | a read gives a prefix of what is left that stays within request, unit and arrival and exhausts one of them or the stream; the end is known exactly when all is read and the arrival said so |
| Streams.AtEnd | rangereaderdecorator.cc:71-77 | a stack that reports EOF has nothing left |
| Streams.RoomyNeverThrows | acknowledgementdecorator.cc:62-64 | a stack whose buffers are large enough never throws, and stays so |
| Streams.MovesAtMost | siot/connection.h:55-56 | whatever comes of it, a throw included, a limited Receive on any stack moves the source over at most that many bytes |
| Streams.ReceiveAllDelivers | siot/connection.h:55-56 | over any sequence of requests the bytes come in order, none lost and none twice, and the source stands right behind them |
| Streams.ReceiveAllNeverThrows | acknowledgementdecorator.cc:62-64 | over any sequence of requests a stack with room throws nothing |
| RangeReaders.ReceiveTracks | rangereaderdecorator.cc:55-68 | below the limit the offset follows the bytes, but jumps to the limit exactly at the end of the stream, and never exceeds it |
| RangeReaders.RangeRun | rangereaderdecorator.cc:52-69 | over any sequence of requests the reader is the wrapped connection asked with other, positive lengths, so 0 is never passed on, and it delivers at most maxSize bytes |
| RangeReaders.EachRequestExact | rangereaderdecorator.cc:60-63 | over any run the k-th length passed on is the caller's own if it fits into what the answers so far left of the window, and exactly what they left if it does not or is 0 |
| RangeReaders.PassesOnUntil | rangereaderdecorator.cc:55-68 | every request is passed on until one throws, the stream ends, or the window is used up |
| RangeReaders.WindowTransparent | rangereaderdecorator.cc:52-69 | while the requests are positive and together at most the size, they are passed on unchanged up to a throw or the end, and the answers are those of the wrapped connection asked directly |
| RangeReaders.EndStays | rangereaderdecorator.cc:57-58 | at the end of the stream no requests read anything more, and none throws |
| RangeReaders.WindowBindsExactly | rangereaderdecorator.cc:52-69 | for every size and every number of Receives a caller may still make after one that throws: over all streams and all such callers the source is moved by at most the size if and only if that number is 0 or the size is |
| RangeReaders.StopperStaysWithin | rangereaderdecorator.cc:55-67 | a caller of the range reader itself that stops at the first throw moves the source by at most the rest of the window, whatever it asks for |
| RangeReaders.DrainExact | rangereaderdecorator.cc:86-97 | the drain eats exactly the rest of the window or all there is, in order, and nothing behind it |
| RangeReaders.DrainNeverThrows | rangereaderdecorator.cc:92-97 | a drain over a stack with room does not throw |
| RangeReaders.DrainRound | rangereaderdecorator.cc:92-97 | every round of the drain makes progress towards the same end |
| RangeReaders.SessionExact | rangereaderdecorator.cc:52-103 | a reader's answers before Shutdown are a prefix of its window, and Shutdown leaves the connection exactly behind it |
| RangeReaders.Partition | rangereaderdecorator.cc:52-103 | consecutive unowned readers of any sizes partition the stream: reader i sees only its own interval from its start, byte by byte, and the last leaves the source at the end of its interval or of the stream |
| Acknowledgements.PerformConserves | acknowledgementdecorator.cc:53-89 | one Receive, Acknowledge or SetAutoAck keeps acknowledged, buffered and unread bytes together the same |
| Acknowledgements.Conservation | acknowledgementdecorator.cc:53-89 | over any run, overflows included, acknowledged bytes followed by the buffer are exactly what was read |
| Acknowledgements.ReceiveReturnsUnacknowledged | acknowledgementdecorator.cc:59-73 | after any run a successful Receive returns the stream from the first unacknowledged byte to the last byte read, at most the maximum |
| Acknowledgements.ReceiveExactly | acknowledgementdecorator.cc:53-74 | after any run and in either mode, a Receive asks for what the limit leaves beside the bytes owed; it throws if and only if the wrapped one does or the bytes then read and not acknowledged exceed the maximum; otherwise it returns exactly those, and keeps them or counts them as acknowledged as SetAutoAck last said |
| Acknowledgements.AcknowledgeExactly | acknowledgementdecorator.cc:76-83 | after any run Acknowledge answers true if and only if that many bytes are owed, then just these count as acknowledged, and the next answer starts right behind them |
| Acknowledgements.EndsExactly | acknowledgementdecorator.cc:109-113 | after any run IsEOF is true if and only if the wrapped connection is at its end and nothing is owed, and then the whole stream was acknowledged |
| Acknowledgements.RequestNeverWraps | acknowledgementdecorator.cc:56-58 | the unsigned difference that wraps around is never what is passed on |
| Acknowledgements.OverflowLasts | acknowledgementdecorator.cc:59-64 | after an overflow every further Receive throws until something is acknowledged |
| Acknowledgements.LimitBindsExactly | acknowledgementdecorator.cc:56-74 | over all wrapped connections, the caller's limit is respected if and only if it exceeds what is buffered, or is at least the maximum, or the buffer has overflowed |
| Acknowledgements.AutoAckTransparent | acknowledgementdecorator.cc:53-74 | with automatic acknowledgement the buffer is step for step the wrapped connection - lengths asked for, wrapped state, answers and EOF - if and only if no single answer exceeds the maximum |
| Acknowledgements.TransparentExactlyWhenLimited | acknowledgementdecorator.cc:53-74 | that is so over every stream if and only if every request is between 1 and the maximum |
| LineBuffers.FillConserves | linebufferdecorator.cc:53-63 | the fill loop appends exactly the bytes it reads, and makes progress unless the end was reached |
| LineBuffers.ReceiveLineReads | linebufferdecorator.cc:50-87 | with nothing queued one call makes exactly n Receives, n the least number after which there is an LF, the end, an empty answer or a throw; what they gave is split behind the remainder, the first line being the answer; it throws if and only if one of them does |
| LineBuffers.EmptyMeansNothingThere | linebufferdecorator.cc:77-81 | an empty answer means that there is no LF so far and that the wrapped connection is at its end or its last Receive gave nothing |
| LineBuffers.QueuedLinesFirst | linebufferdecorator.cc:52-86 | queued lines are handed out in order, one a call, and nothing is read meanwhile |
| LineBuffers.ReceiveLineSteps | linebufferdecorator.cc:50-87 | one Receive takes the answered line off the front of what is pending, and a nonempty answer has its only LF at its end |
| LineBuffers.ReceiveLineHistory | linebufferdecorator.cc:50-87 | one Receive keeps delivered and queued lines and the remainder the exact split of all bytes read |
| LineBuffers.ChunkingDoesNotMatter | linebufferdecorator.cc:50-87 | after any number of calls and for any chunking, delivered and queued lines are the lines of the bytes read and the remainder is what follows the last LF |
| LineBuffers.NoByteLost | linebufferdecorator.cc:50-87 | bytes read are bytes delivered, plus queued lines with their LF, plus the remainder, plus one per CRLF |
| LineBuffers.EOFMeansAllDelivered | linebufferdecorator.cc:107-111 | when IsEOF is true every complete line of the whole stream was delivered and only an unterminated tail is withheld |
| LineBuffers.EndIsReached | linebufferdecorator.cc:77-81 | reading on reaches EOF |
| LineBuffers.ReadToEndExact | linebufferdecorator.cc:50-111 | read until EOF, any stack yields exactly the complete lines of its content |
| LineBuffers.LinesOfAWindow | rangereaderdecorator.cc:52-77 | a line buffer over a range reader of N bytes yields exactly the complete lines of the first N bytes, and in no call up to and including the first that throws does the source move past byte N |
| LineBuffers.RoundTripOverAnyConnection | linebufferdecorator.cc:65-86 | lines written with any endings and arriving in any pieces are read back exactly if and only if each is faithful to its ending |
| Decorators.Handle.Receive | siot/connection.h:55-56 | the virtual call on any stack of objects is Receive of the stack's value |
| Decorators.Handle.IsEOF | siot/connection.h:68-69 | the virtual call on any stack of objects is IsEOF of its value |
| Decorators.SourceConnection.Receive | unixsocketconnection.cc:83-103 | the new state and the answer are those of a clamped read |
| Decorators.RangeReaderDecorator.Receive | rangereaderdecorator.cc:52-69 | the new state of the whole stack and the answer are those of the range reader's Receive |
| Decorators.RangeReaderDecorator.IsEOF | rangereaderdecorator.cc:71-77 | true at the limit or at the end of what is wrapped |
| Decorators.RangeReaderDecorator.EatOnce | rangereaderdecorator.cc:94-96 | one round of the drain, which makes progress |
| Decorators.RangeReaderDecorator.EatRemainingData | rangereaderdecorator.cc:91-97 | the loop leaves the wrapped connection where the drain does |
| Decorators.AcknowledgementDecorator.Receive | acknowledgementdecorator.cc:53-74 | the new state of the whole stack and the answer, or the throw with the buffer kept |
| Decorators.AcknowledgementDecorator.Acknowledge | acknowledgementdecorator.cc:76-83 | drops that many bytes, or refuses and changes nothing |
| Decorators.AcknowledgementDecorator.SetAutoAck | acknowledgementdecorator.cc:85-89 | changes the flag and nothing else |
| Decorators.AcknowledgementDecorator.IsEOF | acknowledgementdecorator.cc:109-113 | the end of what is wrapped and an empty buffer |
| Decorators.LineBufferDecorator.Receive | linebufferdecorator.cc:50-87 | the new state of the whole stack and the answer are those of one line buffer call |
| Decorators.LineBufferDecorator.FillRemainder | linebufferdecorator.cc:55-63 | the first loop reads what the fill of the model reads |
| Decorators.LineBufferDecorator.SplitRemainder | linebufferdecorator.cc:65-75 | the second loop queues the lines of the remainder and keeps its tail |
| Decorators.LineBufferDecorator.IsEOF | linebufferdecorator.cc:107-111 | the end of what is wrapped and no queued line |
| ProtocolSafety.EveryStepKeeps | server.cc:270-535 | every step of every thread keeps the invariant |
| ProtocolSafety.RunKeeps | server.cc:270-535 | so does every run |
| ProtocolSafety.NoCallbackOnDeleted | unixsocketconnection.cc:152-163 | once a connection is deleted or its descriptor closed, no DataReady closure for it is queued, being queued or running, and none is dispatched; the same for ConnectionEstablished with idle reaping off |
| ProtocolSafety.HoldsEndBeforeDelete | unixsocketconnection.cc:158-162 | a read lock of any kind that was taken on a living connection is released before the connection is closed |
| ProtocolSafety.ReadLockHitsDeleted | server.cc:348-389 | in any reachable state, a ReadLock about to be made hits a deleted connection if and only if it is not the data path's, the descriptor is closed, and no thread is at work on the shutdown any more; on the accept path only with idle reaping on |
| DeletedLocks.HitsDeletedExactly | server.cc:348-389 | over all configurations, some run does that never for data, for a new connection if and only if idle reaping is on, for an error if and only if idle reaping is on or handlers call DeferredShutdown |
| DeletedLocks.ErrorsAreSafeWithoutDeferral | server.cc:376-389 | in any reachable state with idle reaping off and handlers that never call DeferredShutdown, the connection an error is reported on is nobody's to shut down, and its ReadLock goes through at once |
| DeletedLocks.ShutDownBeforeError | server.cc:376-389 | with handlers that call DeferredShutdown, any number of workers and any limit, a run is shown in which a worker deletes the connection before its error's ReadLock |
| DeletedLocks.ReapedBeforeError | server.cc:376-389 | with any idle limit a run is shown in which the reaper does |
| DeletedLocks.ReapedBeforeAnnounced | server.cc:328-349 | with any idle limit a run is shown in which a new connection is reaped before its ReadLock |
| ProtocolSafety.DispatchNeverBlocks | server.cc:390-412 | when the dispatcher finds the descriptor in the map, the connection it looked up earlier is still the entry, alive, and not locked or about to be locked for writing, so its ReadLock returns at once |
| ProtocolSafety.EstablishNeverBlocks | server.cc:348-358 | with idle reaping off the accept path's ReadLock, taken without connections_lock_, is safe and does not block |
| ProtocolSafety.ErrorLocksExactlyWhileUnlocked | server.cc:376-388 | the error path's ReadLock goes through if and only if no shutdown of the connection has its write lock yet, and is undefined if and only if the connection is deleted |
| ProtocolSafety.EntriesAreLive | server.cc:512-535 | every map entry is an undeleted connection that has this descriptor open, and the only one |
| ProtocolSafety.AcceptNeverOverwrites | server.cc:325-328 | an accept never replaces a live entry, although descriptors are reused |
| ProtocolSafety.EraseHitsOnlyItsOwn | server.cc:512-535 | an erase by descriptor, decided before the lock was taken, removes its own connection's entry and no other |
| ProtocolSafety.ClosedOnlyWhenDequeued | unixsocketconnection.cc:155-161 | a descriptor is closed only when neither it nor its connection is in the map and, with idle reaping off, when epoll has stopped watching it |
| ProtocolSafety.WatchedExactlyWhenRegistered | server.cc:325-346 | with idle reaping off epoll watches exactly the descriptors in the map, but for one the dispatcher is about to add |
| ProtocolSafety.IdleTestExact | server.cc:438-447 | the unsigned subtraction never wraps, so idle means unused for more than the limit |
| ProtocolSafety.ReaperNeverRelocks | server.cc:462-466 | a Shutdown made by the reaper never finds an entry and never asks again for the lock the reaper holds |
| ProtocolSafety.UnlockFindsAHold | server.cc:473-479 | every Unlock after a callback releases a hold that exists |
| ProtocolSafety.ReadersAreOutstanding | server.cc:348-411 | in every state the read holds on a connection are its callbacks queued, being queued or running |
| ProtocolSafety.ReadersOverRun | server.cc:348-479 | over any run holds at the end and releases equal holds at the start and acquisitions |
| ProtocolSafety.HoldsConserved | server.cc:348-479 | over any run from the start every read lock taken was released once or belongs to one callback still outstanding |
| ProtocolRuns.IdleMeansUnusedSince | server.cc:438-447 | when the reaper finds a connection idle, then after any run more than the limit lies between its clock reading and every earlier accept or use of the connection |
| ProtocolRuns.UsedOverRun | unixsocketconnection.cc:101-108 | over any run the time of last use never goes back |
| ProtocolRuns.NewsOverRun | server.cc:364-375 | over any run the ConnectionTerminated calls made and pending are those pending before and the hang-ups |
| ProtocolRuns.HangupLeavesTheMap | server.cc:362-375 | over any run, whenever the dispatcher is back to look for events, no connection it hung up is in the map any more |
| ProtocolRuns.HungOverRun | server.cc:362-375 | a connection it hung up is being shut down by it or deleted ever after, so it is not hung up again |
| ProtocolRuns.HangupToldOnce | server.cc:364-375 | over any run from the start a connection hangs up at most once, because of that, and the one ConnectionTerminated for it was run, is running or is queued |
| ProtocolRuns.CallsOverRun | server.cc:348-411 | over any run, for each kind of callback, those ended and outstanding are those outstanding before and the events dispatched |
| ProtocolRuns.EveryEventAnsweredOnce | server.cc:348-479 | over any run from the start every dispatched event had its own kind of callback run once or has it outstanding, and no callback runs without an event |
| ProtocolHistory.AcceptedAs | server.cc:281-327 | over any run from the start a connection is there if and only if the run accepted it, is decorated if and only if it was accepted so, and has the descriptor it was accepted on |
| ProtocolHistory.EventsAreTaken | server.cc:360-390 | in every reachable state a dispatcher that looks for events can take data and errors on every entry of the map, and a hang-up unless a shutdown of the connection is queued or under way |
| ProtocolHistory.ConnectionsAreTaken | server.cc:281-327 | and a new connection on any descriptor that is not open |
| ProtocolHistory.HandlersAreFree | server.cc:473-479 | in every reachable state a handler can use its connection and return, and can ask for its shutdown if and only if handlers do that at all and no shutdown of it is queued or under way |
| ProtocolHistory.SweepExact | server.cc:438-468 | over any interleaving, when a sweep is done every entry shut down or idle at its beginning is gone, every entry gone was idle then or has been shut down, and the rest is as it was |
| ProtocolHistory.SweepUnwatches | server.cc:449-460 | and epoll watches no descriptor whose entry the sweep removed, unless the dispatcher was about to add it |
| ProtocolHistory.WatchedOpenOverRun | unixsocketconnection.cc:158-161 | over any run, unless the dispatcher gives epoll a descriptor that was reaped and closed since its insertion, every descriptor epoll watches is open |
| DecoratedLocks.WaitsForRawLock | server.cc:325-355 | in every configuration a state is reachable in which a shutdown of a decorated connection holds the handle's lock and waits for the raw connection's, locked for a ConnectionEstablished still queued |
| Parallel.AllWorkersAtOnce | server.cc:473-479 | in every configuration all workers can be in handlers at the same time |
| ProtocolProgress.StuckMeansAllWorkersShutDown | server.cc:473-535 | with idle reaping off, if there is work and none can go on, then every worker executes a deferred shutdown that waits for a queued callback |
| ProtocolProgress.NoDeadlock | server.cc:473-535 | with idle reaping off and fewer deferred shutdowns executing than workers, in every reachable state outstanding work can go on, even with locks that prefer writers |
| ProtocolProgress.WorkShrinks | server.cc:270-535 | with idle reaping off, every step of work lowers one measure of the work left |
| ProtocolProgress.WorkEnds | server.cc:270-535 | with idle reaping off and without new events, a run of work is no longer than the work left at its start |
| ProtocolProgress.WorkDrains | server.cc:270-535 | with idle reaping off, such a run can be continued until nothing is left to do, or all workers are in shutdowns that wait for the queue |
| WorkerDeadlock.LostForGood | server.cc:473-535 | once every worker shuts down a connection with callbacks outstanding, no run ever takes a closure or runs a callback again |
| WorkerDeadlock.SomebodyTakes | server.cc:473-535 | with idle reaping off, from any reachable state with something queued and one worker not lost that way, a run is built in which a closure is taken, each of its steps possible also with locks that prefer writers |
| WorkerDeadlock.TakenUnlessAllLost | server.cc:473-535 | so, with idle reaping off, something queued is taken in some run if and only if not every worker is lost, and the same with locks that prefer writers |
| WorkerDeadlock.StuckMeansLost | server.cc:473-535 | with idle reaping off, a stuck server has lost all its workers, and is stuck for good |
| WorkerDeadlock.LostEndsStuck | server.cc:473-535 | with idle reaping off, a server that lost its workers comes to a state where no step carries any work on |
| WorkerDeadlock.WorkersCanGetStuck | server.cc:503-535 | for every number of workers such a state is reachable |
| ReaperDeadlock.DoomStopsService | server.cc:438-466 | while the reaper shuts down a connection with an outstanding read hold, no step that needs connections_lock_ is possible |
| ReaperDeadlock.DoomedRun | server.cc:438-479 | that lasts over every run, and the connection is never closed |
| ReaperDeadlock.ReapingDooms | server.cc:445-466 | if a callback for the idle connection the reaper picks is outstanding, every later run is stopped there for good |
| ReaperDeadlock.ReapingCanDoomExactly | server.cc:445-466 | some run is stopped there if and only if a callback for the connection is outstanding, or the dispatcher is between its insertion or lookup and its ReadLock |
| ReaperDeadlock.ReapingFinishes | server.cc:445-466 | otherwise no run is, and at every point of every run the connection is deleted or the reaper can delete it by its own steps alone |
| ReaperDeadlock.SafeOverRun | server.cc:445-466 | the connection then stays out of the map, unlocked and out of the dispatcher's hand |
| ReaperDeadlock.ReaperShutdownGoes | server.cc:462-466 | a shutdown by the reaper that is not stopped that way has an enabled step |
| ReaperDeadlock.ReapingCanStopTheServer | server.cc:421-479 | with any number of workers and any limit a stopped server is reachable |
| Teardown.Connection.Socket | unixsocketconnection.cc:75-77 | a new socket connection is a stack of one layer |
| Teardown.Connection.Decorate | linebufferdecorator.cc:40-44 | a decorator adds one layer to a stack |
| Teardown.Connection.GetServer | linebufferdecorator.cc:101-105 | forwarded through any number of layers to the socket's server |
| Teardown.Connection.IsShutdown | linebufferdecorator.cc:138-142 | forwarded to the flag of the socket at the bottom |
| Teardown.Connection.GetLastUse | linebufferdecorator.cc:113-117 | forwarded to the socket at the bottom |
| Teardown.Connection.Shutdown | linebufferdecorator.cc:125-136 | for a stack of any depth, the ordered record of what is done, the map afterwards, and exactly which shutdown and EOF flags are set |
| Teardown.Connection.Destroy | unixsocketconnection.cc:158-162 | the part after deregistration: lock, close or shut down what is owned, delete |
| Teardown.Connection.Deregister | server.cc:568-575 | sets the flag, and removes the handle from the server's map if there is a server |
| Teardown.Server.DequeueConnection | server.cc:512-535 | removes the handle's entry and nothing else, with connections_lock_ held around it, or does nothing at all |
| Teardown.Server.ReapEntry | server.cc:443-467 | an entry shut down or idle at tm is removed, unwatched, and shut down unless it was; any other is left alone |
| Teardown.Server.SweepEntry | server.cc:441-468 | a round leaves the entries still to be looked at as they were |
| Teardown.Server.SweepRound | server.cc:441-468 | a round adds its entry to the order if and only if it is to be removed |
| Teardown.Server.Sweep | server.cc:438-468 | a sweep leaves exactly the entries neither shut down nor idle at tm, and deals with every other once; by the fields of the socket at the bottom, with no use in the future: an entry stays if and only if the socket's flag is not set and not (max_idle_ > 0 and tm - last use > max_idle_) |
| Teardown.ReapedExactly | server.cc:445-447 | what the reaper takes for reapable is that, in plain subtraction, through any number of layers |
| Teardown.Server.SweepAll | server.cc:441-468 | the sweep's loop over the entries |
| Teardown.StackShutdown | linebufferdecorator.cc:125-136 | the recursive shutdown of any stack is: dequeue the handle, lock the layers from outside in, close the socket, free them from inside out |
| Teardown.ChainExact | rangereaderdecorator.cc:86-103 | the layers shut down are the handle and, from each on, the one it wraps as long as it owns it, and no other |
| Teardown.OnlyEntry | server.cc:515-535 | dequeuing a handle that is in the map takes connections_lock_, removes the descriptor from epoll, and releases the lock, in this order |
| Teardown.StackShutdownOnce | acknowledgementdecorator.cc:127-138 | it takes connections_lock_ at most once, locks and frees each layer down to the first unowned one exactly once and no other, and closes the socket once, or not if a layer is unowned |
| Teardown.ChainIsDistinct | rangereaderdecorator.cc:86-103 | the layers shut down are all different |
| Teardown.SweepInOrder | server.cc:449-467 | in a sweep each removed descriptor leaves epoll before any layer of its connection is locked or freed, and ConnectionTerminated is called after all of that |
| Teardown.SweepOnce | server.cc:438-468 | in a sweep connections_lock_ is never taken again, each removed descriptor is removed from epoll once, and for each removed connection not shut down before every layer down to the first unowned one is locked and freed once, no other, and ConnectionTerminated is called once |

## Left out

- Sockets, epoll system calls, address parsing, error counters and the texts of exceptions: foreign calls. What remains is the set of open descriptors, what epoll watches, and the results of reads.
- `opensslconnection.cc`: the behaviour of OpenSSL is not visible, and its extra mutex is held across `Deregister` (`opensslconnection.cc:118-119`), so it does not fit the lock order.
- `sslcontext.cc`, `Send`, `PeerAsText`, `SetBlocking`: getters and forwarders.
- `Server::Shutdown` and `running_`, and the kqueue, select and poll variants of `Listen`.
- The end of a socket's data: `UNIXSocketConnection::Receive` does not set `eof_` on an empty read (`unixsocketconnection.cc:93-100`), so that draining a socket terminates rests on the source making progress or reporting its end.
- Last-use times in the stream model: only the server model has them.
- Another decorator over a line buffer, or over an acknowledgement buffer that holds data: the inner layer returns more than it was asked for, so these stacks are not plain streams and the composition theorems exclude them (`Streaming`).
- ConnectionTerminated: queued without a read lock (`server.cc:366-374`) or called after `Shutdown` (`server.cc:464-465`), so nothing is claimed about the life of its connection.
- What happens after a ReadLock on a deleted connection, and callbacks queued by it: memory that is no longer the connection's. The dispatcher then does nothing more in the model; `NoDeadlock` and the other theorems speak of the other threads from there on.
- Streams.SourceDelivers: the end of the stream is what the script says; the socket class sets `eof_` only on an error of `recv` or on `Shutdown` (`unixsocketconnection.cc:95-100`).
- Decorators.SourceConnection.Receive: the same script stands for `recv`, and the time of last use is not in this class.
- Decorators.RangeReaderDecorator.EatRemainingData: requires the stack below to be a plain stream, because a buffer that acknowledges by hand gives the same bytes again, and the loop counts them again.
- Decorators.LineBufferDecorator.Receive: requires the same, because over a buffer that acknowledges by hand the first loop need not end: at the end of the stream it is given the same bytes again and again.
- Decorators.LineBufferDecorator.FillRemainder: likewise.
- "Every event is dispatched" is not a property of the code: accepting clears the rest of the batch (`server.cc:329`).
- The map walks of `DequeueConnection` and of the reaper, which erase while they iterate, and the unlocked walk: modelled as walks over a snapshot. The lookup at `server.cc:362` inserts nothing.
- An LF at the very start of the remainder: `linebufferdecorator.cc:68` looks one byte before the string; the model takes it that there is no CR there.
- The order of the executor's queue: any waiting task may be taken next, which covers first-in first-out.
- The locks of layers between the handle and the raw connection are in `Teardown.dfy` only; the transition system has the handle's lock and the raw connection's, and sets the raw connection's flag in the step that locks the handle.
- Virtual functions: a `Handle` datatype stands for a `Connection*`, with one case for each class.
- The drain of a range reader is in `RangeReaders.dfy` and `Decorators.dfy`; the shutdown of stacks in `Teardown.dfy` leaves it out of its record.
