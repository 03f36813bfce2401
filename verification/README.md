# egrpc: a verified model of the client core

egrpc is a client-only gRPC library. Caller threads post work to one event
thread per channel and block; the event thread owns the socket, the HTTP/2
session, the timers and every call. This project models that core in Dafny and
proves what it keeps over every input and every run. `dafny verify
dfyconfig.toml` checks all of it.

## How the model is laid out

| file | models |
|---|---|
| `GrpcFrames.dfy`, `MessageScanner.dfy` | length-prefixed messages as a pure parse, and the incremental scanner object |
| `RequestBody.dfy` | the outbound body: framing, data provider, and the path back through a scanner |
| `CallOutcome.dfy`, `CallState.dfy` | what a call's result means, and the per-call object that computes it hook by hook |
| `BinaryHeap.dfy`, `TimerModel.dfy`, `TimerHeap.dfy` | the timer heap against a plain map of pending timers |
| `EventLoop.dfy` | op queue, eventfd and poll loop as an interleaved protocol |
| `SessionModel.dfy`, `Http2Session.dfy` | keepalive, outbound buffer and stream table; the session object |
| `ChannelModel.dfy`, `ChannelImpl.dfy` | the channel's handlers as functions; the channel object |
| `ChannelOutput.dfy`, `ChannelCauses.dfy`, `ChannelWire.dfy` | a flush as a plain pump, why a channel fails, and the bytes on the wire over whole runs |
| `ChannelSafety.dfy`, `ChannelRuns.dfy`, `ChannelStories.dfy` | what every handler and every run of the channel keeps, and how calls end |
| `ChannelGoAway.dfy`, `ChannelKeepalive.dfy` | exact forms of what the documentation promises about GOAWAY and keepalive |
| `CallResults.dfy` | what UnaryCall returns, from the library's reports through session, channel and call object |
| `ChannelSystem.dfy`, `Witnesses.dfy` | callers, Shutdown callers, event loop and channel together; runs that happen |
| `Base64.dfy`, `GrpcTimeout.dfy`, `Headers.dfy`, `Status.dfy`, `Octets.dfy` | codecs, request headers, metadata, status text, bytes |

Code that updates fields in place is a class whose methods are proved against
functions on values; the theorems are about those functions, and a driver method
(`RunCall`, `RunTimers`, `RunSession`, `RunChannel`, `Reassemble`) ties the object
to them for every list of events. Concurrency is a state machine over atomic steps.

The environment is a parameter. The HTTP/2 library answers with signals, output
chunks and stream ids; the socket with partial writes, blocks and errors; a timer
callback with any list of Add and Cancel commands; clocks with integers in
nanoseconds. Answers are finite scripts: a script that has run out means "nothing
more to send" and "would block". The library is assumed not to reuse a stream id
that is in the table and to report only closed streams while producing output.
A call object is represented by an identity in the channel, and by its own class
in `CallState.dfy`; `CallResults.dfy` joins the two. Failure texts are kept as the
reason they state, or as unspecified; `Wording` and `Text` give the words.

## What is proved first

1. Every interleaving of callers, Shutdown callers, loop and channel keeps each
   call in exactly one place; a Shutdown is never stuck, and once it has returned
   every call ever made has a result and later ones get kUnavailable (`ChannelSystem`).
2. In every run, what UnaryCall returns is the final-status rule applied to what the
   call's stream delivered, or the channel's failure (`CallResults`).
3. No wakeup is lost, ops run once and in order, and after a stop request the loop
   takes boundedly many steps and is never stuck (`EventLoop`).
4. Every run of the channel: one place per call, one result per call, phases never
   go back, tables agree, a channel that is over holds nothing (`ChannelRuns`).
5. The bytes on the wire are those of a plain pipe from library to socket, and a channel
   that fails records exactly what made it fail (`ChannelWire`, `ChannelCauses`).
6. GOAWAY: the exact condition under which calls in flight survive it (`ChannelGoAway`).
7. Keepalive: dead means silent for keepalive_time + keepalive_timeout, a silent peer is
   found dead at the second firing, and when a timer is pending (`SessionModel`,
   `ChannelKeepalive`).
8. The scanner and the call state machine compute functions of the concatenated
   bytes, whatever the chunking (`MessageScanner`, `CallState`).
9. The lazily cancelled heap with re-entrant callbacks is the map of pending timers
   (`TimerHeap`, `TimerModel`).

## Where the code is narrower than its words

- "In-flight calls run to completion" after GOAWAY (src/core/channel_impl.cc:139-141) is
  false: a refused call leaves an error behind, and the next flush that gets everything
  out, in whatever handler, fails every call in flight. `GoAwayFailsCallInFlight` and
  `GoAwayFailsCallLater` give the runs, `GoAwayVerdict` the exact condition.
- TearDown is documented to give every queued and in-flight call kUnavailable and its detail
  (src/core/channel_impl.h:97-98). That is false for the text when it is passed the session's
  own error (src/core/channel_impl.cc:146, 210 and 234): the session is destroyed
  before the calls copy the text, so the text they get is unspecified. `TearDownMoves` and
  `HowCallsEnd` say exactly when a call carries the recorded detail; `GoAwayFailsCallInFlight`
  is a run in which it does not. The code kUnavailable is always right.
- StartSession arms keepalive before it submits the queue, and a new call does not arm it
  (src/core/channel_impl.cc:101-104 and 156-166). So "Ready implies armed" is an invariant with
  `keepalive_permit_without_calls` (`Armed`) and false without it, from the first connection
  on (`UnarmedAfterConnect`); `ArmedExactly` says when a timer is pending.
- A pass over the due timers need not end (`SelfReaddNeverEnds`). On the channel it goes on
  only after a refused PING and a blocked flush, if the timeout is positive (`PassGoesOn`).
- `Base64Decode` drops any number of '=', not up to two (src/core/grpc_wire.cc:214-216).
- The frame prefix truncates the length to 32 bits: `FrameMeansPayload` says exactly when
  a frame stands for its payload.
- Messages that arrive in the same chunk as a bad header are lost (`Reassemble`).
- The guard inside the submit loop of StartSession (src/core/channel_impl.cc:161-164) never
  fires: a submit does not change the phase, and a failed preface flush empties the queue.

## Model

| member | source | states |
|---|---|---|
| GrpcFrames.PrefixLength | src/core/grpc_wire.cc:70-80 | the length read back from a written prefix is the payload length modulo 2^32, flag 0 |
| GrpcFrames.FaultMeans | src/core/grpc_wire.cc:94-117 | in bytes and numbers: flag 1 and any other non-zero flag are code 13 whatever the length, a length over the limit is code 8, and nothing else is a fault |
| GrpcFrames.FaultTexts | src/core/grpc_wire.cc:98-116 | the words of each fault |
| GrpcFrames.ParseOfFrames | src/core/grpc_wire.cc:85-142 | parsing undoes framing of any sendable messages followed by any incomplete frame |
| GrpcFrames.FramesOfParse | src/core/grpc_wire.cc:85-142 | framing undoes parsing: messages plus rest are the stream's bytes, and the fault is the rest's first header |
| GrpcFrames.ParseExactly | src/core/grpc_wire.cc:85-142 | a stream parses cleanly to given messages and rest if and only if it is their framing followed by an incomplete rest |
| GrpcFrames.ParseContinues | src/core/grpc_wire.cc:85-122 | more bytes only continue the rest; a fault, once there, stays the same fault |
| MessageScanner.FirstFault | src/core/grpc_wire.cc:94-121 | the header walk over the buffer finds exactly the fault of the pure parse of the unread bytes |
| MessageScanner.GrpcMessageScanner.Feed | src/core/grpc_wire.cc:85-122 | keeps the invariant tying offered bytes, delivered messages and buffer to the parse of the whole stream; fails exactly when that parse has a fault |
| MessageScanner.GrpcMessageScanner.Next | src/core/grpc_wire.cc:124-142 | delivers the first message of the unread parse if there is one, and otherwise changes nothing |
| MessageScanner.GrpcMessageScanner.Compact | src/core/grpc_wire.cc:134-140 | unread bytes are kept, dead bytes stay under the bound, moved bytes are paid for by consumed ones |
| MessageScanner.GrpcMessageScanner.HasPartialMessage | src/core/grpc_wire.cc:144 | true exactly when unread bytes remain |
| MessageScanner.DrainedMeans | src/core/call_state.cc:141-145 | a drained healthy scanner has delivered exactly the parse of all it was offered |
| MessageScanner.DrainedBounds | src/core/grpc_wire.cc:85-142 | after a drain at most max+4 bytes are unread, the buffer is below r + max(65536, r), and bytes moved never exceed bytes consumed plus compactions |
| MessageScanner.Reassemble | src/core/call_state.cc:134-146 | for every chunking: same fault as the parse of the concatenation; without one, its messages and rest; with one, the messages of the chunks before the refused chunk |
| RequestBody.Stream.DataSourceRead | src/transport/http2_session.cc:116-126 | hands out the next bytes of the body; EOF exactly when the body is exhausted |
| RequestBody.Serve | src/transport/http2_session.cc:116-126 | any buffer sizes yield the body's prefix in order, EOF exactly when the sizes cover it |
| RequestBody.SendAndReceive | src/core/channel_impl.cc:53-54 | a request within 2^32 and the limit, framed, served through any buffers and scanned, is that one message at EOF and nothing before it |
| RequestBody.FrameMeansPayload | src/core/grpc_wire.cc:70-80 | a frame parses to its payload if and only if the payload is under 2^32 bytes and within the limit |
| Status.HttpStatusToGrpcCode | src/core/grpc_wire.cc:39-57 | for each gRPC code, exactly the HTTP statuses that fall back to it; OK is none of them |
| Status.HttpNumbers | src/core/grpc_wire.cc:39-57 | the same in code numbers |
| Status.CodeNumbers | src/core/grpc_wire.cc:66 | a status number up to 16 is its own code, a larger one is code 2 |
| Status.ParseGrpcStatus | src/core/grpc_wire.cc:59-68 | one to ten digits, read as a number; anything else is malformed |
| Status.OkStatusText | src/core/grpc_wire.cc:59-68 | a status text means OK if and only if it is one to ten zeros |
| Status.PercentDecode | src/core/grpc_wire.cc:169-185 | the loop computes the lenient decoding |
| Status.PlainPassesThrough | src/core/grpc_wire.cc:172-183 | text without a percent sign is its own decoding, in front of anything |
| Status.StrayPercent | src/core/grpc_wire.cc:173-182 | a percent sign not followed by two hex digits stays where it is |
| Status.HexDigits | src/core/grpc_wire.cc:19-24 | the hex digits and their values, upper and lower case |
| Status.EscapedRoundTrip | src/core/grpc_wire.cc:169-185 | decoding undoes every percent-encoding of every text |
| CallOutcome.FallbackVerdict | src/core/call_state.cc:228-256 | without a grpc-status the result is never OK |
| CallOutcome.OkExactly | src/core/call_state.cc:191-226 | the final code is OK if and only if the status says 0 and the DATA is one flag-0 frame within the limit; the response is then its payload, otherwise empty |
| CallOutcome.OkRun | src/core/call_state.cc:100-226 | the same for every event sequence ending in close: the last header literally named grpc-status in trailers or an END_STREAM block is one to ten zeros, and the DATA is one frame |
| CallOutcome.CapturedMeans | src/core/call_state.cc:100-163 | every captured field in the headers' own names: last :status and content-type of responses, last grpc-status and grpc-message of trailers, the remaining entries in order |
| CallOutcome.KindNames | src/core/call_state.cc:112-124 | which literal name each kind of header stands for |
| CallOutcome.StatusDecides | src/core/call_state.cc:192-226 | in numbers: a framing fault wins, a malformed status is 13, a non-zero one is itself (above 16: 2) with the message decoded, a zero without exactly one message is 13 |
| CallOutcome.FallbackDecides | src/core/call_state.cc:228-256 | without a status: HTTP status other than 200, then a content type that does not start with application/grpc (13), then close code 7 (14), 8 (1), any other (13) |
| CallOutcome.AtoiReads | src/core/call_state.cc:113 | the HTTP status reads a decimal number back past leading blanks and whatever follows it |
| CallOutcome.ContentTypeMeans | src/core/call_state.cc:20-22 | a content type is gRPC's exactly when it starts with application/grpc |
| CallOutcome.StatusTexts | src/core/call_state.cc:205-242 | the words for a malformed or missing status, and the server's own words |
| CallOutcome.MessageTexts | src/core/call_state.cc:213-221 | the words for a truncated, missing or extra message |
| CallOutcome.HttpTexts | src/core/call_state.cc:229-237 | the words for an unexpected HTTP status or content type |
| CallOutcome.CloseTexts | src/core/call_state.cc:244-251 | the words for a refused or cancelled stream |
| CallOutcome.ResetText | src/core/call_state.cc:252-254 | the words for any other close code |
| CallOutcome.LocalText | src/core/call_state.cc:172-178 | a local failure says what it was given |
| CallOutcome.EndDecides | src/core/call_state.cc:165-170 | the result at close is a function of header events, concatenated DATA and close code |
| CallOutcome.OnlyBytesAndHeadersMatter | src/core/call_state.cc:93-178 | re-chunking DATA or reordering it against header blocks changes no field of the result |
| CallOutcome.OutcomeIsFinal | src/core/call_state.cc:100-178 | once there is a result no further events change it |
| CallOutcome.OrdinaryResponse | src/core/call_state.cc:100-163 | status and message are the trailers' headers of those literal names only; initial and trailing metadata are the other entries, kept apart and in order |
| CallOutcome.TrailersOnlyResponse | src/core/call_state.cc:106-129 | one END_STREAM block gives status and message by literal name and all other metadata as trailing |
| CallStates.CallState.constructor | src/core/call_state.cc:78 | a new call has no events and no result |
| CallStates.CallState.OnSubmitted | src/core/call_state.cc:93-98 | keeps the fields, phase and stream id equal to what the events so far mean; a closed call keeps its result |
| CallStates.CallState.OnResponseHeaders | src/core/call_state.cc:100-132 | as above, for a response header block |
| CallStates.CallState.TakeResponseHeaders | src/core/call_state.cc:111-129 | the sorting loop captures the last value per kind and keeps the application's entries in order |
| CallStates.CallState.OnData | src/core/call_state.cc:134-146 | as above, for a DATA chunk, also after a scanner failure |
| CallStates.CallState.TakeResponses | src/core/call_state.cc:142-145 | the drain loop leaves the count and the first of all messages of the parse |
| CallStates.CallState.OnTrailers | src/core/call_state.cc:148-163 | as above, for trailers |
| CallStates.CallState.OnClose | src/core/call_state.cc:165-170 | closes with the result the events mean, once |
| CallStates.CallState.FailLocal | src/core/call_state.cc:172-178 | closes with the local failure unless already closed |
| CallStates.CallState.FinalizeLocked | src/core/call_state.cc:191-257 | the precedence rule over scanner, status, HTTP status, content type and close code gives `Final` of the DATA |
| CallStates.CallState.Completed | src/core/call_state.cc:180-184 | what a waiter gets is the outcome of the events |
| CallStates.RunCall | src/core/call_state.cc:93-263 | for every list of hook events the object's result is the outcome of the list |
| CallStates.StreamIs | src/core/call_state.cc:93-98 | the stream id is the first submitted one that comes before any response and any end |
| CallStates.ClosedMeans | src/core/call_state.cc:165-178 | a call is closed exactly when some event has ended it |
| BinaryHeap.FrontIsLeast | src/transport/timer_heap.h:61-66 | nothing in a heap has an earlier deadline than its front, or the same deadline and a smaller id |
| BinaryHeap.PushHeap | src/transport/timer_heap.cc:15-16 | a heap with exactly the new entry added |
| BinaryHeap.PopHeap | src/transport/timer_heap.cc:24-25 | a heap with exactly the front removed |
| TimerHeaps.TimerHeap.constructor | src/transport/timer_heap.h:71-73 | no timer pending, first id 1 |
| TimerHeaps.TimerHeap.Add | src/transport/timer_heap.cc:12-18 | adds one pending timer under an id never used and never 0 |
| TimerHeaps.TimerHeap.Cancel | src/transport/timer_heap.cc:20 | removes the timer; true exactly when it was pending |
| TimerHeaps.TimerHeap.PruneCancelledTop | src/transport/timer_heap.cc:22-27 | loses no pending timer; the front is then the least pending one |
| TimerHeaps.TimerHeap.NextDeadline | src/transport/timer_heap.cc:29-33 | the minimum of the pending deadlines, none exactly when none is pending |
| TimerHeaps.TimerHeap.PollTimeoutMs | src/transport/timer_heap.cc:35-44 | -1, 0 or a timeout that ends after the next deadline by at most a millisecond, unless capped |
| TimerHeaps.TimerHeap.RunCallback | src/transport/timer_heap.cc:55-57 | commands issued from inside a callback act on the same pending map |
| TimerHeaps.TimerHeap.FireTop | src/transport/timer_heap.cc:51-57 | the timer is gone before its callback runs |
| TimerHeaps.TimerHeap.RunDue | src/transport/timer_heap.cc:46-61 | whenever a finite pass exists: always fires the least pending due timer, counts them, and leaves none due |
| TimerHeaps.RunTimers | src/transport/timer_heap.cc:12-61 | every client session whose passes end is a lawful run of the model, fires no timer twice, and runs as many callbacks and leaves exactly the timers that the requests determine |
| TimerModel.LeastIsUnique | src/transport/timer_heap.h:61-66 | which timer fires next is determined |
| TimerModel.PassIsUnique | src/transport/timer_heap.cc:46-61 | there is at most one complete pass: which timers fire, and in which order, is determined |
| TimerModel.QuietEnds | src/transport/timer_heap.h:48-51 | a pass ends as soon as callbacks stop adding timers due at its time |
| TimerModel.GoneForGood | src/transport/timer_heap.cc:46-61 | what a pass fires was not spent before, is spent after, and fires once |
| TimerModel.NoTimerFiresTwice | src/transport/timer_heap.cc:12-61 | over any run no id fires twice and no fired id is pending again |
| TimerModel.CancelledNeverFires | src/transport/timer_heap.cc:20 | a timer cancelled while pending never fires in the rest of the run |
| TimerModel.FiringOrder | src/transport/timer_heap.h:48-51 | with callbacks that add only later timers each fired timer has a smaller deadline than the next, or the same deadline and a smaller id |
| TimerModel.LeastMeans | src/transport/timer_heap.h:61-66 | the timer that fires next, spelled out: smallest deadline, then smallest id |
| TimerModel.TiesInOrder | src/transport/timer_heap.h:61-66 | timers with equal deadlines fire in the order they were added: when one fires, an older one has fired or was cancelled |
| TimerModel.FiresOnTime | src/transport/timer_heap.cc:12-61 | over any run a timer fires only in a pass at or after the deadline it was added with, and a pass at or after it leaves it fired or cancelled |
| TimerModel.SelfReaddNeverEnds | src/transport/timer_heap.cc:46-61 | a timer that re-adds itself at `now` admits no finite pass |
| EventLoop.Notified | src/transport/wakeup.cc:19-27 | a notify leaves the saturating counter positive |
| EventLoop.Reachable | src/core/event_thread.cc:68-161 | in every interleaving: accepted = executed, then the batch, then the queue; committed loops with work have a signal; stop implies drained |
| EventLoop.NoLostWakeup | src/core/event_thread.cc:68-90 | a loop blocked with an op queued or stop requested has a readable eventfd or a thread about to Notify |
| EventLoop.RunOnceInOrder | src/core/event_thread.cc:116-134 | ops run once, in acceptance order, and all of them before the thread exits or a joiner returns |
| EventLoop.StopIsBounded | src/core/event_thread.cc:116-161 | after a stop request nothing is accepted and in any continuation the loop takes boundedly many steps |
| EventLoop.StopMakesProgress | src/core/event_thread.cc:116-161 | and it is never stuck: it can step, or a Notify is owed |
| EventLoop.WakeupsArePaid | src/transport/wakeup.cc:19-37 | in every interleaving readable wakeups, plus one if the eventfd is readable, are at most the Notifys: the loop does not spin |
| SessionModel.OutputConserved | src/transport/http2_session.cc:238-270 | over every run the bytes held back are those of a plain pipe that knows neither buffer nor mark; what the socket took of the bytes offered, then what is held back, is what the library made, in order |
| SessionModel.PipeIsTight | src/transport/http2_session.cc:238-270 | the pipe loses, repeats and reorders nothing |
| SessionModel.ConsumeLeaves | src/transport/http2_session.cc:267-270 | after the socket took n of the offered bytes exactly the others are unsent |
| SessionModel.RefillOffers | src/transport/http2_session.cc:238-265 | what is offered is what waits, or else what the library makes, or nothing if it fails; it is asked only when nothing waits |
| SessionModel.SignalsMean | src/transport/http2_session.cc:52-72 | any PING ack ends the wait for it, any GOAWAY starts draining, acks are counted, the last GOAWAY says whether pings were too many |
| SessionModel.StreamsGo | src/transport/http2_session.cc:100-112 | a stream leaves the table exactly when it is reported closed |
| SessionModel.CheckDecides | src/transport/http2_session.cc:285-322 | dead, PING sent, PING refused or nothing, each by its condition on clock and flags, and what each leaves behind |
| SessionModel.PingsCounted | src/transport/http2_session.cc:305 | over every run the number in the PINGs counts the attempts |
| SessionModel.TerminateRefuses | src/transport/http2_session.cc:324-328 | after Terminate no submit is accepted |
| SessionModel.ErrorTexts | src/transport/http2_session.cc:198-212 | the words of the session's own errors |
| SessionModel.DeadMeansSilent | src/transport/http2_session.cc:285-322 | kDead at a time implies no read and no creation within keepalive_time + keepalive_timeout before it |
| SessionModel.FiringMovesOn | src/transport/http2_session.cc:277-322 | a firing at or after the deadline kills, or moves the deadline past now, if and only if no PING is due, or the library takes it and the timeout is positive |
| SessionModel.SilentPeerDies | src/transport/http2_session.cc:285-322 | after a firing that pinged, with nothing received, the firing after keepalive_timeout is kDead |
| SessionModel.SubmitAgrees | src/transport/http2_session.cc:198-236 | a submit keeps table and counter in agreement for a fresh id, and breaks it for a reused one |
| SessionModel.HooksAgree | src/transport/http2_session.cc:100-112 | each on_close hook runs once, for a call that had a stream and then has none |
| SessionModel.StreamsAgree | src/transport/http2_session.cc:100-236 | over every run with fresh ids table and counter agree and no call's hook runs twice |
| Http2Sessions.Http2Session.constructor | src/transport/http2_session.cc:129-179 | a live session with the read clock at now, or a dead one with the setup error |
| Http2Sessions.Http2Session.ListenOne | src/transport/http2_session.cc:52-112 | PING ack, GOAWAY and stream close act on the fields as the model says |
| Http2Sessions.Http2Session.ReceiveBytes | src/transport/http2_session.cc:185-196 | bumps the read clock, applies the signals, reports failure |
| Http2Sessions.Http2Session.SubmitUnaryRequest | src/transport/http2_session.cc:198-236 | refuses when dead, draining or rejected, leaving the error on record; else registers the stream |
| Http2Sessions.Http2Session.PendingOutput | src/transport/http2_session.cc:238-265 | refills only when everything was consumed; the view is the unsent region or nothing after an error |
| Http2Sessions.Http2Session.CollectOutput | src/transport/http2_session.cc:247-257 | the refill loop appends the chunks up to the first error |
| Http2Sessions.Http2Session.ConsumeOutput | src/transport/http2_session.cc:267-270 | exactly the bytes the socket did not take are still unsent |
| Http2Sessions.Http2Session.NextKeepaliveDeadline | src/transport/http2_session.cc:277-283 | the model's deadline |
| Http2Sessions.Http2Session.CheckKeepalive | src/transport/http2_session.cc:285-322 | the model's verdict and next state, PING refusal included |
| Http2Sessions.Http2Session.TerminateSession | src/transport/http2_session.cc:324-328 | the session is draining |
| Http2Sessions.RunSession | src/transport/http2_session.cc:185-328 | for every list of operations what the socket took off the object's output and what waits are the pipe's, and together what the library made |
| ChannelSafety.TearDownMoves | src/core/channel_impl.cc:273-294 | every queued and active call is failed, unavailable, and carries the recorded detail if and only if TearDown was not passed the session's own error; nothing of the channel is left, no earlier result changes |
| ChannelSafety.FlushMoves | src/core/channel_impl.cc:205-225 | a flush keeps the channel up with timers, queue and clocks untouched, or fails it; calls are conserved |
| ChannelSafety.DrainMoves | src/core/channel_impl.cc:227-247 | reading conserves calls and keeps tables and containers in agreement |
| ChannelSafety.RearmMoves | src/core/channel_impl.cc:249-271 | afterwards a keepalive timer is pending exactly when the session has a deadline, between the session's clock and that plus the clock skew; nothing else changes |
| ChannelSafety.SubmitMoves | src/core/channel_impl.cc:176-203 | an accepted call is active with one stream; a refused one has a result; nothing else changes place |
| ChannelSafety.SubmitAllMoves | src/core/channel_impl.cc:158-166 | the queued calls all move on and the channel stays Ready |
| ChannelModel.ReasonTexts | src/core/channel_impl.cc:86-340 | the words of every local failure |
| ChannelRuns.NewCallKeeps | src/core/channel_impl.cc:86-106 | the handler keeps the invariant and adds exactly the new call |
| ChannelRuns.ConnectKeeps | src/core/channel_impl.cc:123-168 | connect progress, session start and queue submission keep the invariant |
| ChannelRuns.TrafficKeeps | src/core/channel_impl.cc:170-174 | socket events keep the invariant, keepalive arming included |
| ChannelRuns.TimerKeeps | src/core/channel_impl.cc:108-121 | a firing connect or keepalive timer keeps the invariant |
| ChannelRuns.KeepaliveKeeps | src/core/channel_impl.cc:257-270 | the keepalive callback keeps the invariant, dead or re-armed |
| ChannelRuns.ShutdownKeeps | src/core/channel_impl.cc:306-340 | shutdown fails every queued and active call with its reason; hooks of the farewell flush change nothing |
| ChannelRuns.EventsKeep | src/core/channel_impl.cc:86-340 | from any sound state through any events: sound, phase not lower, results kept, calls conserved |
| ChannelRuns.EveryRun | src/core/channel_impl.cc:86-340 | in every run the invariant holds and the known calls are exactly the calls made |
| ChannelRuns.NeverBack | src/core/channel_impl.cc:86-340 | between any two moments of a run the phase does not go back and no result changes |
| ChannelRuns.WhereCallsAre | src/core/channel_impl.cc:86-340 | each call is queued, active or finished, never two; queued only while Connecting, active only while Ready; nothing is left once Failed or shut down |
| ChannelStories.FlushVerdict | src/core/channel_impl.cc:205-225 | a flush tears down if and only if it breaks, and then for the write error's or the library's own text, or drains with an error on record, and then for that; otherwise error and draining stay, and what the socket did not take waits |
| ChannelStories.FlushDelivers | src/core/channel_impl.cc:205-225 | what waited and what the library made went to the socket or waits now, in order; a flush that drains leaves nothing waiting |
| ChannelStories.NewCallDelivers | src/core/channel_impl.cc:101-104 | if its flush drains and the channel is still Ready, nothing is held back when the handler ends |
| ChannelStories.TrafficDelivers | src/core/channel_impl.cc:170-174 | the same for whatever the library answers to received bytes |
| ChannelStories.KeepaliveDelivers | src/core/channel_impl.cc:257-270 | the same for a queued PING |
| ChannelStories.ClosedStreamFinishesItsCall | src/core/channel_impl.cc:186-193 | the first reported close of a stream in the table finishes its call with the reported code |
| ChannelOutput.PumpIsTight | src/core/channel_impl.cc:205-225 | the flush loop on plain bytes: waiting and made bytes are wire and waiting bytes, in order |
| ChannelOutput.PumpGoesOn | src/core/channel_impl.cc:205-225 | after a write of n of the offered bytes the next view is the rest of them |
| ChannelCauses.ReadVerdict | src/core/channel_impl.cc:227-247 | reading fails the channel if and only if some read ends in EOF, an error or a library failure, and the first such one is the recorded detail: closed by server, the socket's text, the library's text |
| ChannelCauses.ReadFailsCalls | src/core/channel_impl.cc:227-247 | and every call in flight finished before by its stream or carries that cause, unless it was the session's |
| ChannelCauses.ConnectVerdict | src/core/channel_impl.cc:123-168 | a connect error, failed setup or broken preface fails the channel and every queued call for exactly that cause; otherwise the queue's flush decides |
| ChannelCauses.NewCallElsewhere | src/core/channel_impl.cc:86-121 | a new call on a channel that is not Ready: connecting starts or fails with the socket's text, the call queues, or it fails with the recorded detail or because of the shutdown |
| ChannelWire.WireIsPipe | src/core/channel_impl.cc:86-340 | in every run the bytes handed to the socket are those of a plain pipe between library and socket: each byte made goes out once and in order, or waits; while Ready the session holds back exactly the waiting ones |
| ChannelStories.HowCallsEnd | src/core/channel_impl.cc:86-340 | through any events a call in flight stays, finishes by its own stream, is shut down, or fails with the channel; it then carries the recorded detail exactly when that was not the session's own error |
| ChannelStories.ConnectTimeoutFailsQueue | src/core/channel_impl.cc:108-121 | the connect timer fires no earlier than connect_timeout, the queue is then the calls in order, and every one of them fails with the timeout |
| ChannelStories.FailedForTheSameReason | src/core/channel_impl.cc:91-93 | a failed channel answers every later call with the recorded reason and changes nothing else until shutdown |
| ChannelStories.QueueKeepsOrder | src/core/channel_impl.cc:158-166 | queued calls get the library's ids in queue order |
| ChannelCauses.EventVerdict | src/core/channel_impl.cc:86-340 | for every handler: a Ready channel stays Ready if and only if its flush blocks, or drains with no error, old or new; otherwise the recorded detail is what stopped the handler, what broke the flush, or the error on record |
| ChannelGoAway.ErrorOrigin | src/transport/http2_session.cc:198-236 | over any run a Ready channel has an error if and only if it had one before or a call or PING was refused since; nothing clears it, and draining never ends |
| ChannelGoAway.GoAwayVerdict | src/core/channel_impl.cc:139-141 | over any run after GOAWAY: a flush that drains fails the channel and every call in flight if and only if some event so far made a call or had its due PING refused; a flush that blocks fails nothing |
| ChannelGoAway.DrainingAlone | src/core/channel_impl.cc:139-141 | through any events without a new call no call in flight is failed because of draining: if the channel comes down, something else broke or it was shut down |
| ChannelGoAway.RefusalDooms | src/core/channel_impl.cc:205-225 | once anything was refused the channel is Ready exactly as long as every flush blocks, and the first that drains, in any handler, takes every call in flight |
| ChannelGoAway.NewCallVerdict | src/core/channel_impl.cc:101-104 | one handler: a new call fails a Ready channel if and only if its flush breaks, or drains while the session is draining, refused the call or had an error; the call itself is told of the draining |
| ChannelGoAway.GoAwayFailsCallInFlight | src/core/channel_impl.cc:139-141 | a run in which GOAWAY and then a second call fail a call in flight, whose text is lost with the session |
| ChannelGoAway.GoAwayFailsCallLater | src/core/channel_impl.cc:205-225 | a run in which the second call leaves the first alone because the socket blocks, and a later write fails it |
| ChannelKeepalive.NewCallNeverArms | src/core/channel_impl.cc:101-104 | a new call leaves the keepalive timer and the session clock as they were |
| ChannelKeepalive.ArmedExactly | src/core/channel_impl.cc:249-271 | in every run a Ready channel has a keepalive timer if and only if permit_without_calls is set or a stream was active at the last re-arm |
| ChannelKeepalive.UnarmedAfterConnect | src/core/channel_impl.cc:156-166 | without permit_without_calls a run from the start in which the first connection leaves a call in flight, a deadline and no timer |
| ChannelKeepalive.FirstFiringPings | src/transport/http2_session.cc:285-322 | with no PING outstanding a firing of the keepalive timer sends one if and only if permit_without_calls is set or a call is in flight |
| ChannelKeepalive.SilentPeerFailsEveryCall | src/core/channel_impl.cc:249-271 | after that firing, through new calls and socket events without received bytes, the next firing comes no earlier than keepalive_timeout and fails the channel and every active call |
| ChannelKeepalive.PassGoesOn | src/core/event_thread.cc:128-161 | a pass over the channel's timers goes on if and only if the channel is Ready, keepalive is not gated off, a PING was due, and it was refused with the old deadline still past or its timeout is already over |
| ChannelKeepalive.ConnectPassEnds | src/core/channel_impl.cc:108-113 | after the connect timer no timer of the channel is due |
| CallResults.SignalsTell | src/transport/http2_session.cc:23-112 | what a call is told while bytes are read is what its stream delivers, and then its close if the hook ran |
| CallResults.ToldIsStream | src/transport/http2_session.cc:23-112 | a call is told exactly the signals about its stream, in order, up to the first close |
| CallResults.ReadsTell | src/core/channel_impl.cc:227-247 | the same over all reads of a socket event together |
| CallResults.LogTells | src/core/call_state.cc:80-91 | in every run what a call object is told ends it exactly when, and as, the channel recorded a result |
| CallResults.UnaryCallReturns | src/core/channel_impl.cc:33-64 | in every run UnaryCall's result is the final-status rule on the header blocks, DATA and close code its stream delivered, or the channel's failure with the metadata heard so far, or there is none yet |
| CallResults.UnaryCallIsOk | src/core/channel_impl.cc:33-64 | and it is OK if and only if the stream closed, the last grpc-status is one to ten zeros and the DATA is one frame within the limit; the response is its payload |
| ChannelImpls.ChannelImpl.constructor | src/core/channel_impl.cc:15-29 | Idle, nothing owned but an empty timer heap |
| ChannelImpls.ChannelImpl.TearDown | src/core/channel_impl.cc:273-294 | the object records the detail, drops the session and only then fails the calls, as the model's teardown says |
| ChannelImpls.ChannelImpl.CancelTimersAndUnwatch | src/core/channel_impl.cc:296-304 | both timers leave the heap, the watch is gone |
| ChannelImpls.ChannelImpl.FlushOutput | src/core/channel_impl.cc:205-225 | the write loop against the model's flush; the bytes the socket takes off each view are the plain pump's |
| ChannelImpls.ChannelImpl.DrainSocket | src/core/channel_impl.cc:227-247 | the read loop against the model's drain |
| ChannelImpls.ChannelImpl.RearmKeepalive | src/core/channel_impl.cc:249-271 | cancels and re-adds the timer in the heap as the model says |
| ChannelImpls.ChannelImpl.SubmitCall | src/core/channel_impl.cc:176-203 | against the model's submit |
| ChannelImpls.ChannelImpl.StartConnecting | src/core/channel_impl.cc:108-121 | against the model, refusal included |
| ChannelImpls.ChannelImpl.HandleNewCall | src/core/channel_impl.cc:86-106 | against the model in all five phases |
| ChannelImpls.ChannelImpl.StartSession | src/core/channel_impl.cc:137-168 | against the model, setup failure included |
| ChannelImpls.ChannelImpl.OnConnectProgress | src/core/channel_impl.cc:123-135 | against the model for all outcomes |
| ChannelImpls.ChannelImpl.OnSocketReady | src/core/channel_impl.cc:170-174 | against the model |
| ChannelImpls.ChannelImpl.OnKeepalive | src/core/channel_impl.cc:257-270 | against the model |
| ChannelImpls.ChannelImpl.DoShutdown | src/core/channel_impl.cc:306-340 | against the model, farewell flush included |
| ChannelImpls.ChannelImpl.SayFarewell | src/core/channel_impl.cc:326-337 | the farewell loop hands the plain pump's bytes to the socket |
| ChannelImpls.RunChannel | src/core/channel_impl.cc:86-340 | for every lawful run the object's phase and results are the model's, waiting and finished calls are disjoint and are all calls, and the bytes sent are the pipe's |
| ChannelSystem.Reachable | src/core/channel_impl.cc:33-82 | the invariant of callers, queue, channel and shutdown holds in every interleaving |
| ChannelSystem.OnePlacePerCall | src/core/channel_impl.cc:33-106 | each call that passed the size check is in exactly one of refused, op queue or batch, channel queue, active, finished |
| ChannelSystem.ShutdownUnblocksEveryone | src/core/channel_impl.cc:66-82 | once a Shutdown has returned the thread is gone, all accepted ops ran, the channel is released, every call ever made has a result (its stream's, kUnavailable, or kResourceExhausted for an oversize request), and every waiting caller can return |
| ChannelSystem.CallsAfterShutdownFail | src/core/channel_impl.cc:36-63 | a later call returns kUnavailable, the channel is shut down, without the loop; an oversize one kResourceExhausted with both sizes |
| ChannelSystem.ShutdownGoesOn | src/core/channel_impl.cc:66-82 | while a Shutdown is in progress one of its steps, a step of the loop that does not wait, or the Notify a sleeping loop waits for is enabled |
| ChannelSystem.QueuedCallWakesLoop | src/core/event_thread.cc:82-90 | a call in the queue of a blocked loop has a readable eventfd or a Notify coming |
| Witnesses.CallReturnsOk | src/core/channel_impl.cc:33-64 | a lawful run in which a call returns OK with the server's payload |
| Witnesses.ConnectTimesOut | src/core/channel_impl.cc:108-121 | a lawful run in which the connect timer fails the call |
| Witnesses.PeerIsSilent | src/core/channel_impl.cc:249-271 | a lawful run in which a PING is sent, not answered, and the second firing fails the call |
| Witnesses.ShutdownReturns | src/core/channel_impl.cc:66-82 | a run of the whole system in which a Shutdown returns |
| Base64.AlphabetInverse | src/core/grpc_wire.cc:26-35 | the value of a table entry is its index, and no entry is the padding sign |
| Base64.Alphabet | src/core/grpc_wire.cc:26 | the table in ASCII codes |
| Base64.ValueInverse | src/core/grpc_wire.cc:28-35 | and the table entry at a character's value is that character |
| Base64.Base64Encode | src/core/grpc_wire.cc:187-211 | the loop and its two tails give, character by character, the six-bit groups of the input |
| Base64.GroupNumber | src/core/grpc_wire.cc:191-198 | four characters carry their three bytes as one 24-bit number, most significant bits first |
| Base64.Base64Decode | src/core/grpc_wire.cc:213-234 | the decoder with its wrapping accumulator computes the octets the characters stand for |
| Base64.Decoding | src/core/grpc_wire.cc:213-234 | accepts exactly alphabet strings whose stripped length is not 1 modulo 4, and yields floor(3 len / 4) bytes |
| Base64.WrapIsHarmless | src/core/grpc_wire.cc:221-231 | the wrapping shift keeps the low twelve bits, which are all that is still read out |
| Base64.RoundTrip | src/core/grpc_wire.cc:187-234 | decoding an encoding with any number of '=' appended gives the bytes back |
| GrpcTimeout.EncodeGrpcTimeout | src/core/grpc_wire.cc:146-167 | for every int64 the header, read by its digits and its last character as the protocol defines them, is at least the timeout and less than one unit more, and no finer unit could say it in eight digits; the final clamp is unreachable |
| GrpcTimeout.HeaderReads | src/core/grpc_wire.cc:156-164 | the same for the value and unit chosen |
| GrpcTimeout.NeverEarly | src/core/grpc_wire.cc:146-167 | never less than the timeout, less than one unit more, at most eight digits, exact in nanoseconds |
| GrpcTimeout.Overshoot | src/core/grpc_wire.cc:154-165 | beyond nanoseconds overshoot times 99999999 is below 1000 times the timeout |
| GrpcTimeout.Monotone | src/core/grpc_wire.cc:154-165 | a longer timeout is never encoded as a shorter one, across unit changes |
| Headers.LowerTwice | src/core/call_state.cc:24-29 | lower-casing is idempotent |
| Headers.LowerMeans | src/core/call_state.cc:24-29 | exactly the ASCII codes 65 to 90 change, each by 32 |
| Headers.BinMeans | src/core/call_state.cc:31-33 | a key is binary exactly when it ends in -bin |
| Headers.ReservedKeys | src/core/call_state.cc:39-49 | the reserved keys, literally |
| Headers.WireForm | src/core/call_state.cc:69-74 | a -bin value goes out in base64 that decodes to it, any other as it is, under the lower-case key |
| Headers.ExposedMeans | src/api/channel.cc:35-42 | a -bin value that decodes is exposed decoded; any other value, an undecodable one included, as it came |
| Headers.TransportHeaders | src/core/call_state.cc:60-65 | method, scheme, path, authority, te and content-type, each with its value and place |
| Headers.OptionalHeaders | src/core/call_state.cc:60-74 | user agent, accepted encoding and timeout with values and places, then the caller's entries |
| Headers.AgentMeans | src/core/call_state.cc:58-59 | the user agent behind the channel owner's prefix |
| Headers.BuildRequestHeaders | src/core/call_state.cc:53-76 | pseudo-headers, fixed headers, the encoded timeout if there is one, then the caller's surviving entries in order |
| Headers.PseudoFirst | src/core/call_state.cc:60-65 | the four pseudo-headers come first and nothing after them is one |
| Headers.TransportKeysOnce | src/core/call_state.cc:35-49 | a transport-owned key occurs at most once, and as often as the transport itself puts it, whatever the metadata |
| Headers.CallerKeys | src/core/call_state.cc:69-74 | what the caller adds is lower-case and never reserved |
| Headers.DepositMetadata | src/api/channel.cc:30-44 | per key the exposed values in arrival order, and views equal to storage |
| Headers.MetadataRoundTrip | src/core/call_state.cc:69-74 | depositing the caller part gives, per key and in order, exactly the unreserved entries with their raw values, `-bin` ones included |

## Left out

- TLS, name resolution and socket calls: only their outcomes appear.
- The HTTP/2 library itself: HPACK, flow control, frame parsing, and the accumulation of header fields into a block before a hook runs.
- Mutex, condition variable, thread creation and pthread attributes: lock sections and eventfd calls are atomic steps; a channel whose event thread failed to start is not modelled.
- A poll error that ends the loop: the loop is assumed alive until it is asked to stop.
- `eventfd` and `Wakeup` retry loops on EINTR: Notify and Drain are single steps on the saturating counter.
- `EventThread` as an object: it is a state machine over its steps, because the claims are about interleavings of threads.
- Overflow in `std::atoi` on `:status` and wrap-around of 64-bit ids and counters.
- WantWrite and the poll event masks: they decide when poll wakes, not what a handler does.
- Target parsing, channel arguments and credentials: small string handling without state.
- The grpcpp async, callback, server and completion-queue shims, generated code and examples: they do not add protocol logic.
- Reconnect, backoff, local deadlines, cancellation and resilient streams: described in the design document, not implemented.
- TimerHeaps.TimerHeap.RunDue: requires that a finite pass exists, because the source's loop has no other exit and a Dafny method must end; `PassIsUnique`, `QuietEnds` and `SelfReaddNeverEnds` say when one does.
- TimerHeaps.RunTimers: requires the same of every pass it is asked for.
- ChannelImpls.ChannelImpl.OnTimer: takes the fired timer out of the heap itself instead of being called back by RunDue, because a callback of the heap is a list of commands and not a method.
- The read of a destroyed string is modelled as an unspecified text; that it could also do anything else is not.
