# Castle, modelled and proved

Castle is a reverse proxy with a process supervisor built in. Each worker thread runs one
edge-triggered epoll loop. A client connection and its backend connection live on one loop, point
at each other and call each other re-entrantly. The supervisor is a loop of its own that launches,
reaps, restarts and quarantines the backends. A token bucket per address guards `accept`, and the
control console corrects misspelt commands.

The model follows the source file by file:

| file | models |
|---|---|
| `Wire.dfy` | what sockets and transport may answer, as finite series of outcomes per direction; reference functions that say where a given series leaves a push, a relay or a write loop, and which outcomes it uses up |
| `RequestHead.dfy`, `Framing.dfy`, `Responses.dfy` | the header loop of `process_head`; the responses castle makes up; an independent reader of forwarded heads and of those responses |
| `Proxy.dfy`, `ProxyRuns.dfy` | the two connections and the deferred-close set as one object with the source's fields and its re-entrant calls; whole runs of it, and runs that end where one would not expect |
| `EventLoop.dfy` | the handler table, the close set, the task queue and the dispatch of a batch |
| `SupervisorTrace.dfy`, `SupervisorPace.dfy`, `Supervision.dfy`, `SupervisorRuns.dfy` | what a lawful trace of system calls is and what follows from it; how far backoffs climb when launches are not late; the supervisor's callbacks, proved to produce lawful traces only, and exactly which; runs of it |
| `RateLimiter.dfy` | the buckets, their pruning and the shared overflow bucket |
| `AutoCorrect.dfy` | the greedy edit cost and the search by length |
| `Basics.dfy` | what several of them share |

How the system around the program appears:

- A callback of a connection runs against an `Io`: for each direction of each socket, the outcomes
  its system calls will see. A used-up series would block. Ghost logs record what crossed the
  sockets: `received` and `fetched` are exactly what the used-up outcomes of `recv` and `read`
  brought, in order; `taken` and `written` are what the two sends took; `handed` and `read` lie between.
- The supervisor's clock advances by any amount at each reading, a fork returns the next process id
  of a script or fails, and `waitpid` returns any process ids. The ghost `log` lists every system
  call in order.
- What callbacks and tasks do to an event loop is given as lists of calls.
- `steady_clock` instants are integers (supervisor) and reals (limiter); tokens are reals.

A callback of a connection is described from its start. `Reading` says how far its reads get (`Pull`
for a linked pair, `FromHead` before that), `Mouth` what its write side starts from, and `Driven` what
both lead to: the outcomes that are used up, what is queued, who is still linked, whether the client is
still open, and whether one of the next three things happens. Each happens exactly under the stated
condition on entry state and script:

- `forward_body` tests `backend_` only at its start, and a failing `send` sets it to null
  (`src/http/http_connection.cpp:373-378`). If body bytes are still missing, the next test reads
  through the null pointer: `faults.undefinedRead`, exactly when the reading ends in `Cut`. After that
  the model goes on as if the test had been false, and the flag stays set.
- If none are missing (`LastLost`), line 377 overwrites the state that the failed send has left. A
  client that it has closed stays closed: exactly when a response had begun, or when the 502 is not
  stuck in its push (`Broken`). Any other goes on streaming without a backend. A backend that cannot be
  registered with the loop (`src/net/event_loop.cpp:61-63`) leaves its client in the same way
  (`Unregistered`). Such a client is an orphan: an open connection is reading its head, has its
  backend or drains a last response exactly if it is not one (`OpenMeansProgress`). An orphan reads on
  and is pushed at; `AdriftOf` and `Drifted` say whether it is still open when the callback is over,
  and with what. `ResetInUpload` and `NobodyToForwardTo` are runs that leave an open orphan, and in
  `AnsweredYetOpen` one whose client has taken all that was queued is open all the same. Without a failing write and
  a failing registration no run has an undefined read or an orphan (`Serve`).
- `pump_write` resumes a paused backend and then tests `state_` again. If the resumed read finds
  the end of the response while the client would block, the rest of the response is dropped:
  `cutShort`, exactly under `CutsShort`. `FinishedResponseCutShort` is a run that gets there.
- `pump_write` returns `Ok` after a resumed stretch even when a send inside that stretch would block,
  and the caller remembers the `Ok` (`src/http/http_connection.cpp:201-211`). What the queued bytes
  wait for is then not in the mask (`Forgotten`), exactly when a paused backend is resumed by this
  callback, the resumed stretch leaves bytes queued whose last send asks to read (`Forgets`), and the
  reads are paused, over or waiting to write. That delays a wake-up but loses none: such a state is
  entered by a change of the mask only, to one that watches writes (`NoLostWakeup`), and with a
  change the kernel looks at the socket anew. When the client is then called, the direction is in the
  mask again, unless all that was queued has been taken and a resumed backend has filled the queue
  anew (`AskAgain`). On a plain transport, whose sends never ask to read
  (`src/net/transport.cpp:33-50`), no run gets there (`Serve`); `ReadsUnwatched` is a run over TLS that
  does, with a client that has closed its sending side.

Where else the code does not do what one would expect, it is modelled as it is:

- `README.md:81` of the repository says that paused reads resume below 64 KiB. That holds for uploads
  only; downloads resume when the client's queue is empty (`src/http/http_connection.cpp:201-206`).
- A failed fork after an operator's restart leaves `is_down` set in state `Backoff`
  (`src/supervisor/supervisor.cpp:128-131`). `DownExactly` says when a service counts as down, and
  `RestartInVain` is a run that gets there.
- Doubling the backoff stays within 32 bits on every rung exactly when the upper bound is below 2^30
  (`DoublingFits`), and below it no run overflows however late launches come. Above it the breaker
  decides, which takes a service that is restarted automatically out at its sixth exit within a day. If
  every launch comes at most `slack` after it was due, for any slack of at most an hour, a run overflows
  exactly when five doubled delays, five times that slack and six short runs come to more than a day
  (`OutlastsADay`): `DoublingOverflows` is that run and `DoublingStaysInRange` says that otherwise there
  is none. With the timer of one second on time that means a shortest delay of 1393 seconds or more
  (`OutlastsOnTime`). Without automatic restarts only failed forks put launches off, and those do not
  climb past the first delay that is as long as a short run (`ForksAloneStayLow`).
- The limiter admits a fresh address without a look at the burst, so below one the bound fails
  (`SmallBurstOvershoots` has the exact condition), and a full bucket does not answer like a fresh one
  (`FullIsFresh`). Pruning is invisible to every run from an empty table exactly when a burst is at least one or
  nothing is refilled (`PruningIsInvisibleExactly`). `main` builds limiters with whole numbers of at
  least one only (`src/main.cpp:124-127`, `src/main.cpp:176-179`), for which it is invisible.
- The greedy edit cost is never below the optimal distance but can exceed it (`GreedyOvershoots`); for
  words of one length it is optimal exactly when some cheapest script makes no gap (`GreedyIsOptimalExactly`).

Every function that decides something — which request is refused and why, which callbacks an entry leads to,
which children are reaped, who is let in, when names are the same, what a series of outcomes leaves — is pinned
by statements that do not use it: places in a list, a quantifier over outcomes or entries, an alphabet of its own.

`ForwardedRequestReadsBack` assumes of the parser that names, values, verb and target hold no
separators of their own (`WellFormed`); everything else about the proxy is proved for any parser that
hands out pieces of the bytes it was given.

## Model

| member | source | states |
|---|---|---|
| `Proxy.Pair.PumpWrite` | src/http/http_connection.cpp:183-212 | With no paused backend exactly one push happens, which takes a prefix of the queue and uses up the outcomes that `Push` says; its end decides between drained, blocked and closed. With one, relaying goes on from an empty queue and ends where `Relay` says, and the response is cut short exactly when that stretch finishes with bytes left |
| `Proxy.Pair.OnReadable` | src/http/backend_connection.cpp:58-82 | The read loop ends where `Relay` says for the given outcomes of both sockets, with the same outcomes left; while the pair is linked every byte fetched has joined the queue, and the loop ends having seen would-block unless it was paused or unlinked |
| `Proxy.Pair.ReadOnce` | src/http/backend_connection.cpp:61-81 | One read uses up one outcome and logs its bytes; the end that `Relay` foresees for the stretch stays the same |
| `Proxy.Pair.TakeReply` | src/http/backend_connection.cpp:61-81 | Data are delivered, end of file unlinks and drains, an error fails the pair: each as the next step of `Relay` |
| `Proxy.Pair.DeliverToClient` | src/http/http_connection.cpp:415-428 | Exactly the data given join the queue at its end; it is then pushed as `Push` says, and the backend is paused exactly when more than 256 KiB stay queued |
| `Proxy.Pair.ResumeReads` | src/http/backend_connection.cpp:90-97 | Called with an empty queue, leaves the pair where `Relay` says, having read all that came |
| `Proxy.Pair.OnBackendClosed` | src/http/http_connection.cpp:436-442 | Closes at once if the rest can be sent, otherwise stays open with the rest queued and its wake-up armed |
| `Proxy.Pair.OnBackendError` | src/http/http_connection.cpp:444-450 | A 502 with the reason before the first response byte, a plain close after it |
| `Proxy.Pair.SendResponse` | src/http/http_connection.cpp:539-554 | A made-up response only ever replaces an empty queue, and is the only response from then on |
| `Proxy.Pair.Close` | src/http/http_connection.cpp:566-575 | Both sides are unlinked and their closes requested; a second call does nothing |
| `Proxy.Pair.Fail` | src/http/backend_connection.cpp:151-158 | The client is told once and the backend's close requested |
| `Proxy.Pair.RecomputeInterest` | src/http/http_connection.cpp:214-249 | The mask is the one that `ClientMask` gives for the blocked directions, and a change is noted exactly when it differs from the last one |
| `Proxy.Pair.ApplyInterest` | src/http/backend_connection.cpp:137-149 | The mask is the one that `BackendMask` gives |
| `Proxy.Pair.WriteOut` | src/http/backend_connection.cpp:111-125 | Written bytes and queue together are what they were; fails exactly when a hard error comes before the queue empties or blocks |
| `Proxy.Pair.Flush` | src/http/backend_connection.cpp:111-135 | The pair stays linked exactly when the writes do not fail; what they leave is what `WriteLeft` and `WriteRest` say; an upload paused with less than 64 KiB left is resumed and goes on as `Driven` says, and without one nothing else changes |
| `Proxy.Pair.OnBackendDrained` | src/http/http_connection.cpp:430-434 | A paused upload is resumed with a whole drive, which reads as far as `Pull` says from here and leads to what `Driven` says; otherwise nothing happens |
| `Proxy.Pair.Send` | src/http/backend_connection.cpp:37-41 | The bytes are handed over in order; the link survives exactly when the flush does not fail, with exactly the bytes left that the writes leave |
| `Proxy.Pair.ForwardBody` | src/http/http_connection.cpp:369-381 | The announced part of exactly these bytes is handed over, the remaining count never underflows, and the outcome is that of one step of `Pull`: undefined read, orphan, pause or none. After a failing send the client is closed, or open with exactly what is stuck of its 502, as `AdriftOf` says |
| `Proxy.Pair.Drive` | src/http/http_connection.cpp:104-129 | Never active twice, ends on every finite script, and leads to what `Driven` says of the reading and the write side that it starts from, with the matching mask; a client that loses its backend on the way is open afterwards exactly when `Driven` says so |
| `Proxy.Pair.RecvOnce` | src/http/http_connection.cpp:134-163 | One recv uses up one outcome and logs its bytes; bytes are handled, a half-close is remembered exactly when the request is through and closes otherwise, an error closes; the end that was foreseen for the reading stays the same |
| `Proxy.Pair.HandleClientBytes` | src/http/http_connection.cpp:167-181 | Exactly the bytes received count as head, body or surplus according to the state, and lead to the next step of `FromHead` or `Pull` |
| `Proxy.Pair.AdmitRequest` | src/http/http_connection.cpp:290-354 | Castle's own endpoints by the path's prefix; otherwise the made-up response is exactly the `Refusal` that the headers deserve, and each is deserved for its own reason (`Deserved`), told by the places of the headers; without one the parsed request, which meets every test (`Welcome`), is the one that is forwarded, with what there is of its body, as `Joined` says |
| `Proxy.Pair.ProcessHead` | src/http/http_connection.cpp:255-367 | Castle answers itself exactly when and what `Reply` says for the parser's verdict; what it answers, the bytes of the head deserve (`Deserved`), and bytes that are neither refused nor forwarded are those of an incomplete head |
| `Proxy.Pair.HandleInternal` | src/http/http_connection.cpp:458-478 | The status endpoints' answers by method and path |
| `Proxy.Pair.Greet` | src/http/http_connection.cpp:107-122 | Done, closed, or waiting in the direction that the handshake asked for, exactly as it answered |
| `Proxy.Pair.StartStreaming` | src/http/http_connection.cpp:354-366 | A backend that cannot be opened is answered with its 502, one that cannot be registered orphans the client; otherwise the head and exactly the announced part of what follows it are queued |
| `Proxy.Pair.BeginBody` | src/http/http_connection.cpp:357-364 | Bytes that came with the head are body, and exactly their announced part is handed over |
| `Proxy.Pair.StartBackend` | src/http/http_connection.cpp:383-410 | A linked backend with the head queued, a 502, or an orphan when the registration fails |
| `Proxy.Pair.OnBackendReadable` | src/http/backend_connection.cpp:58-82 | The pair ends where `Relay` says for the whole script, with the outcomes left that it says; the logs grow by what was read, nothing is cut short, and a direction missing in the mask stays so exactly if nothing is read |
| `Proxy.Pair.OnBackendBroken` | src/http/backend_connection.cpp:109-109 | The client gets a 502 with the reason before the first response byte, of which exactly what its push gets stuck on stays queued, and a plain close after it; the flags stay as they are |
| `Proxy.Pair.OnBackendWritable` | src/http/backend_connection.cpp:43-56 | A failed connect or a failing write unlinks; otherwise exactly the bytes stay queued that the writes leave, a paused upload goes on as `Driven` says when they are fewer than 64 KiB, and nothing else of the client changes when not |
| `Proxy.Pair.OnClientReady` | src/http/http_connection.cpp:104-129 | Whatever was known about the read side before: the logs grow by what the used-up outcomes brought, and the callback leads to what `Driven` says, with the exact condition of each flag, of a direction missing in the mask, and of the client being open after a failed forward, registration or answer |
| `Proxy.Pair.ProcessPendingClose` | src/net/event_loop.cpp:141-147 | In any order of destruction: exactly the requested connections die, links are unhooked, and nothing alive refers to something destroyed |
| `ProxyRuns.Serve` | src/net/event_loop.cpp:176-203 | Any run of events, each with any series of outcomes: the invariant holds, the logs are the old ones and then what a first part of each series brought, in order, and no log loses a byte. Without failing writes and registrations no forward goes wrong; without the end of a response none is cut short; on a plain transport no direction that queued bytes wait for goes unwatched |
| `ProxyRuns.OneEvent` | src/net/event_loop.cpp:181-202 | Each event leads to exactly what its callback does, seen from the state before it: whatever was driven has been read until it would block, paused or ended (`ReadEnough`, `RelayedEnough`), and a client whose connect, write or backend fails is closed if a byte of the response has been read, and otherwise told why (`LossTold`) |
| `ProxyRuns.OnlyTheWelcomeGo` | src/http/http_connection.cpp:290-354 | In every reachable state with a backend: the request that went to it is what the parser made of the bytes received, its path does not start with `/_castle/`, no header is called TRANSFER-ENCODING, its length is that of its only CONTENT-LENGTH (or zero without one) and within the body limit, and the router knows its path with the value of the last header called HOST |
| `ProxyRuns.RefusalsAreDeserved` | src/http/http_connection.cpp:255-342 | In every reachable state: a made-up response is one that the bytes of the head deserve, by the first test that fails and with every earlier one passed; a client whose head is still being read has sent an incomplete one only |
| `ProxyRuns.NothingElseIsWatched` | src/http/http_connection.cpp:214-249 | Input of a client that is paused or has ended is watched only when a send asked to read, output with nothing queued only when a recv asked to write; the backend's mask is exactly not paused, and something queued |
| `ProxyRuns.HeadReads` | src/http/http_connection.cpp:134-181 | Reading that starts in the head of a request goes on until that would block; while the client stays open it stops earlier only for a refusal or a backend that cannot be had, for a pause in the middle of the body with more than 256 KiB queued, at the end of the client's bytes after it, or at a failing forward, and all that came before were bytes; it closes the client only for a failing transport or the end of its bytes |
| `ProxyRuns.PullReads` | src/http/http_connection.cpp:134-181 | A linked pair is read until that would block, unless more than 256 KiB queued pause it in the middle of the body, or the client's bytes end with the body complete; what is still missing is the announced length less the bytes that arrived. It closes the client only for a failing transport or bytes that end before the body does. An undefined read ends in the middle of the body, an orphan exactly at its end |
| `ProxyRuns.DiscardReads` | src/http/http_connection.cpp:134-181 | A client without a backend is read until that would block, or to the end of its bytes once its request is through, and closed only for a failing transport or bytes that end before |
| `Wire.PushExactly` | src/http/http_connection.cpp:183-199 | A push is drained by the first sends that take all of it; otherwise what stays is what the sends did not take, up to the first that would block, whose direction is asked for; it fails exactly on a hard outcome before that |
| `Wire.RelayExactly` | src/http/backend_connection.cpp:58-82 | A relayed stretch reads, past every interruption, until that would block, until data have filled the queue over 256 KiB, or to the end of file, and is lost only to a failing read or a client that is gone; what was queued and brought is queued still or has been taken |
| `Wire.WritesExactly` | src/http/backend_connection.cpp:111-125 | Writing fails exactly if the first write that ends the loop is a failing one that comes before the queue is empty; otherwise nothing is left, with no more writes used than that takes, or what the writes did not take |
| `ProxyRuns.NoLostWakeup` | src/http/http_connection.cpp:201-243 | Between callbacks every unpaused direction with work left would block at its last call and is watched, but for the states in `Forgotten`. In those the mask has changed since the client was last called and watches writes; `Driven` characterises from the entry of a callback whether it leads there |
| `ProxyRuns.AskAgain` | src/http/http_connection.cpp:183-212 | When a client in such a state is called, the direction its bytes wait for is watched afterwards, unless all that was queued has been taken and a resumed backend has filled the queue anew |
| `ProxyRuns.PausesAreArmed` | src/http/http_connection.cpp:415-434 | A paused upload has 64 KiB queued (more than 256 KiB before the connect) and EPOLLOUT armed; a paused download has bytes queued for the client, and what they wait for is watched, or the mask has changed since the client was last called and watches writes; the two cannot block each other |
| `ProxyRuns.UploadConserved` | src/http/http_connection.cpp:350-381 | Bytes written to the backend and queued for it are the rewritten head and the announced part of the body received; head and body together are all that the socket brought; the remaining count is exact |
| `ProxyRuns.ForwardedRequestReadsBack` | src/http/http_connection.cpp:290-352 | For a parser that yields well-formed pieces: an independent reader of those bytes sees verb, target and kept headers of the request that the parser made of the bytes received, one `Connection: close`, and a length equal to the body that is forwarded |
| `ProxyRuns.DownloadInOrder` | src/http/http_connection.cpp:183-212 | The client has a prefix of what the backend socket brought or of one made-up response as `Responses` prints it, never a blend; while linked, nothing that was fetched is missing |
| `ProxyRuns.BoundedMemory` | src/http/http_connection.cpp:267-270 | The three buffers stay within 32, 256 and 256 KiB plus one read |
| `ProxyRuns.OpenMeansProgress` | src/http/http_connection.cpp:354-380 | An open connection reads its head, has its backend or drains a last response, exactly if it was not orphaned |
| `ProxyRuns.LinksAreSound` | src/http/http_connection.cpp:566-575 | The two pointers are set together and only between living connections with no close pending |
| `ProxyRuns.PullSurvives` | src/http/http_connection.cpp:369-381 | However the client's bytes come, without a failing write no forward ends in an undefined read or an orphan |
| `ProxyRuns.PlainForgetsNothing` | src/http/http_connection.cpp:201-211 | With sends that never ask to read, pump_write remembers what it waits for |
| `ProxyRuns.FillsUp` | src/http/http_connection.cpp:420-426 | Enough chunks for a client that takes nothing pause the backend, with at most one chunk over the mark |
| `ProxyRuns.ResetInUpload` | src/http/http_connection.cpp:372-380 | A run from a new pair to the undefined read, or, when the reset meets the last byte, to an open client that streams without a backend; either has its 502 queued |
| `ProxyRuns.AnsweredYetOpen` | src/http/http_connection.cpp:203-211 | The run goes on: the client takes all that was queued, and its connection is still open, streaming without a backend |
| `ProxyRuns.NobodyToForwardTo` | src/net/event_loop.cpp:56-67 | A run from a new pair to an open client that streams without a backend, because that could not be registered |
| `ProxyRuns.FinishedResponseCutShort` | src/http/http_connection.cpp:203-209 | A run from a new pair in which a finished response loses its last byte |
| `ProxyRuns.ReadsUnwatched` | src/http/http_connection.cpp:201-211 | A run from a new pair to a linked client with a byte queued that waits for reads, which its mask does not watch |
| `RequestHead.IsHopByHop` | src/http/http_connection.cpp:58-66 | True exactly for names that in capitals are one of the seven, written out in capitals |
| `RequestHead.EqualIgnoringCase` | src/http/http_connection.cpp:49-55 | The loop is equality of lengths and, at every place, of characters in capitals |
| `RequestHead.FoldsCase` | src/http/http_connection.cpp:49-55 | Names are the same exactly if they are in capitals: each of `a` to `z` moved by 32, every other character as it is |
| `RequestHead.ParseContentLength` | src/http/http_connection.cpp:73-82 | Accepts exactly 1 to 18 digits and returns their decimal value, with every intermediate value below 10^18 |
| `RequestHead.LengthsAreAccepted` | src/http/http_connection.cpp:73-82 | Every length below 10^18, written in decimal, is accepted and read back |
| `RequestHead.DecimalFromFront` | src/http/http_connection.cpp:76-79 | Accumulating from the front gives positional notation: the first digit counts for as many tens as digits follow |
| `RequestHead.Rewrite` | src/http/http_connection.cpp:290-329 | The loop prints the kept headers in order; it reports a transfer coding exactly if some header is called TRANSFER-ENCODING in capitals, the value of the last one called HOST, the length of the only CONTENT-LENGTH, and tells a repeated one from an invalid one by the first place at which either shows |
| `RequestHead.KeptPlaces` | src/http/http_connection.cpp:302-318 | The kept headers are exactly those whose name in capitals is none of the seven, in the order in which they came |
| `RequestHead.PrintSize` | src/http/http_connection.cpp:295-329 | The rewritten head is at most 500 bytes longer than the received one |
| `Framing.ForwardedHeadReadsBack` | src/http/http_connection.cpp:295-329 | Whatever follows it, the printed head reads back as verb, target, kept headers and one Connection header |
| `Framing.FramingAgrees` | src/http/http_connection.cpp:302-342 | For headers with no name that is TRANSFER-ENCODING in capitals and the given length as their only one, the reader, which compares names on its own, finds that body length, no transfer coding and no hop-by-hop header |
| `Framing.AnswerFramesItsBody` | src/http/http_connection.cpp:539-548 | The independent reader sees a made-up response as its status line, its four headers and its body: the only Content-Length is the length of the text in decimal, and the text follows unless only the head is wanted |
| `EventLoop.Loop.AddHandler` | src/net/event_loop.cpp:56-67 | A new handler is registered and owned, or refused and destroyed on the spot; no living handler is replaced |
| `EventLoop.Loop.Perform` | src/net/event_loop.cpp:69-93 | Whatever a callback calls, nothing living is destroyed or replaced, closes are only noted and tasks are appended in order |
| `EventLoop.Loop.RunPendingTasks` | src/net/event_loop.cpp:130-139 | Everything posted before runs once and in order; what those tasks post waits in order for the next ring, and the closes noted are exactly theirs |
| `EventLoop.Loop.Dispatch` | src/net/event_loop.cpp:176-202 | The callbacks of one entry, error alone, or readable then writable with the latter skipped once the close is pending, and what they ask of the loop: exactly `AfterEntry`. The callbacks made are those that the entry deserves, told by what was reported and what is to be closed (`Deserves`) |
| `EventLoop.Loop.ProcessPendingClose` | src/net/event_loop.cpp:141-147 | Exactly the handlers whose close was requested are destroyed |
| `EventLoop.Loop.SweepTimeouts` | src/net/event_loop.cpp:120-128 | Notes exactly the closes that registered handlers ask for and leaves the table as it is: what one entry of a batch does whose callback is the timer of the sweep |
| `EventLoop.Loop.Turn` | src/net/event_loop.cpp:176-203 | The batch is worked off entry by entry in order: callbacks made, tasks run, tasks queued and closes noted are exactly those of `AfterBatch`. Told without it: the callbacks made are, entry by entry and with no others, the error alone of a broken handler, else the read, then the write unless the handler's close was noted by the end of the batch (`Played`); no handler is destroyed but by a request for its close, and of those alive at the start exactly those that the close set of that end names. No pointer dangles when it is called through |
| `EventLoop.Loop.Run` | src/net/event_loop.cpp:164-205 | Every turn is `AfterBatch` of what the kernel reports, until the offers end or someone stops the loop; the tasks that ran and those queued are the tasks posted, in order |
| `EventLoop.BatchGrows` | src/net/event_loop.cpp:181-190 | Nothing done or noted in a batch is undone, and a ring in it runs every task queued before the batch |
| `EventLoop.BatchPlays` | src/net/event_loop.cpp:192-201 | From any state of work, the callbacks that a batch adds split into those of its entries, each what its entry deserves |
| `EventLoop.OnlyTheWanted` | src/net/event_loop.cpp:69-93 | What is to be closed after a batch was so before, or a callback of one of its entries or a task that ran in it asks for it; what was to be closed, or a task asks for, still is |
| `EventLoop.PostedPlaces` | src/net/event_loop.cpp:86-93 | The tasks that a list of calls posts are its posts, in order, and no others |
| `EventLoop.ReportedPlaces` | src/net/event_loop.cpp:169-190 | What of the kernel's offers is reported are those for the doorbell and for registered handlers, in order, and no others |
| `SupervisorTrace.SixExitsADay` | src/supervisor/supervisor.cpp:257-280 | In any closed 24 hours without an operator's restart an automatically restarted service exits unexpectedly at most six times |
| `SupervisorTrace.CountIsBounded` | src/supervisor/supervisor.cpp:178-201 | The breaker never counts more than six exits |
| `SupervisorTrace.CountedNext` | src/supervisor/supervisor.cpp:158-166 | Pushing an exit and popping old ones from the front leaves exactly the exits in the window that ends with it |
| `SupervisorTrace.OnlyAnOperatorRecovers` | src/supervisor/supervisor.cpp:348-373 | A service that is quarantined or failed stays so and is not launched until an operator restarts it |
| `SupervisorTrace.DownExactly` | src/supervisor/supervisor.cpp:168-176 | A service counts as down exactly when it is out, or was restarted while out and no launch has worked since |
| `SupervisorTrace.OutExactly` | src/supervisor/supervisor.cpp:257-280 | A service is out exactly if it has exited unexpectedly and is not restarted automatically, or if six of those exits lie within the day that ends with the last |
| `SupervisorRuns.RestartInVain` | src/supervisor/supervisor.cpp:128-131 | A run of the supervisor that leaves a service down, not out, and waiting for its next launch |
| `SupervisorTrace.OneChild` | src/supervisor/supervisor.cpp:149-151 | No service ever has two unreaped children |
| `SupervisorTrace.ReapedAreGone` | src/supervisor/supervisor.cpp:234-238 | After a child has been reaped no service has it, unless its process id was given to a new child since |
| `SupervisorTrace.NoLaunchAfterShutdown` | src/supervisor/supervisor.cpp:249-251 | If no restart is carried out after the shutdown has begun, nothing is launched after it |
| `SupervisorTrace.StoppedMeansDrained` | src/supervisor/supervisor.cpp:342-346 | Once the loop has been told to stop, no child is left, then or later |
| `SupervisorTrace.DelayAfterRuns` | src/supervisor/supervisor.cpp:203-219 | After k short runs in a row that follow a long one or the first, the delay is min(max, min times 2^k) |
| `SupervisorTrace.RungCounts` | src/supervisor/supervisor.cpp:203-219 | The rung is the number of short runs in a row, the first after an operator's launch not counted |
| `SupervisorTrace.NextDelay` | src/supervisor/supervisor.cpp:210-215 | The code's doubling climbs one rung of the closed form |
| `SupervisorTrace.DoublingFits` | src/supervisor/supervisor.cpp:213-214 | Doubling fits a 32-bit integer on every rung exactly when the upper bound is below 2^30 |
| `SupervisorPace.AlwaysClimbing` | src/supervisor/supervisor.cpp:178-219 | In a lawful trace without late launches, a service climbs at most five rungs above one from which six short runs fit in a day, and the exits that led up are no older than the delays allow |
| `SupervisorPace.PromptDoublingFits` | src/supervisor/supervisor.cpp:213-214 | For such traces doubling fits 32 bits unless the upper bound is 2^30 or more and the delays spread six exits over more than a day |
| `SupervisorPace.ForksAloneStayLow` | src/supervisor/supervisor.cpp:128-142 | Without automatic restarts, failed launches alone climb no higher than the first rung whose delay is as long as a short run, however late they come |
| `SupervisorRuns.ClimbTo` | src/supervisor/supervisor.cpp:203-219 | With an upper bound of 2^30 or more and delays that spread six exits over more than a day: for every rung a run of the supervisor that climbs to it, past the breaker, with no launch later than the slack allows |
| `SupervisorRuns.DoublingOverflows` | src/supervisor/supervisor.cpp:213-214 | Under that condition a run, with no launch later than the slack allows, whose next doubling leaves 32 bits |
| `SupervisorRuns.DoublingStaysInRange` | src/supervisor/supervisor.cpp:213-214 | Otherwise no reachable state doubles beyond 32 bits: with a smaller upper bound, or without automatic restarts and with a shortest delay below 2^30, however late launches come; and with delays that leave six exits within a day if no launch is later than a slack of at most an hour |
| `SupervisorTrace.RelaunchWaits` | src/supervisor/supervisor.cpp:306-309 | No launch that an operator did not ask for comes before its delay has passed |
| `Supervision.Supervisor.Fork` | src/supervisor/supervisor.cpp:128-133 | Returns the next process id exactly when it is positive and no unreaped child has it, and uses it up (`Usable`) |
| `Supervision.Supervisor.Spawn` | src/supervisor/supervisor.cpp:120-156 | A launch is attempted with the next fork, only when it may be: with a usable process id it is the only thing on the trace and the service runs with it, otherwise the next launch is scheduled; every field mirrors the trace |
| `Supervision.Supervisor.ScheduleRestart` | src/supervisor/supervisor.cpp:203-222 | The backoff is that of the closed form and the due time follows from it |
| `Supervision.Supervisor.PruneFailures` | src/supervisor/supervisor.cpp:158-166 | Popping from the front of an ordered queue leaves exactly the recent entries |
| `Supervision.Supervisor.RecordFailure` | src/supervisor/supervisor.cpp:178-201 | The queue is exactly the counted exits, and the total counts all |
| `Supervision.Supervisor.Reap` | src/supervisor/supervisor.cpp:234-281 | The trace grows by the reaped child and then exactly: nothing for an unknown child or in a shutdown, a launch if an operator had asked for it, otherwise the noted exit, followed by a scheduled relaunch exactly if the service is not out. Only its own service changes |
| `Supervision.Supervisor.OnSigchld` | src/supervisor/supervisor.cpp:224-287 | The children reaped are exactly the process ids up to the first that is not positive, in order, and none of them is a service's child afterwards unless born since; nothing is signalled. Each is dealt with as `Reap` says; in a shutdown the loop is told to stop exactly when no child is left; a service that is out is not touched |
| `Supervision.Supervisor.OnTick` | src/supervisor/supervisor.cpp:289-309 | The launches tried are exactly those of the services whose time has come, in order and each once; in a shutdown nothing is launched, and past the deadline exactly the living children are killed, in order. Each launch takes the next fork |
| `Supervision.Supervisor.BeginShutdown` | src/supervisor/supervisor.cpp:325-340 | The signals sent are one to end for every living child, in order, and nothing is launched or reaped; every other service counts as stopped |
| `Supervision.Supervisor.FinishIfDrained` | src/supervisor/supervisor.cpp:342-346 | During a shutdown the loop is told to stop as soon as, and only when, no child is left |
| `Supervision.Supervisor.DoRestart` | src/supervisor/supervisor.cpp:348-374 | The first service of that name, by place: its child is asked to end, or exactly one launch of it is tried; an unknown name changes nothing. The breaker is cleared in either case |
| `Supervision.Supervisor.Start` | src/supervisor/supervisor.cpp:101-104 | Exactly one launch of every service is tried, in order, with the next forks |
| `Supervision.Supervise` | src/supervisor/supervisor.cpp:96-118 | Any run: the trace is that of the launches at the start and then, for every event in turn, exactly what that event leads to; it is lawful and mirrored by the fields, and in the order in which main stops things no restart comes after the shutdown; what each event reaps, launches and signals is what the statements of the callbacks say of the trace before and after it (`Does`) |
| `Supervision.DealingReaps` | src/supervisor/supervisor.cpp:233-282 | Dealing with dead children adds exactly them, in order, to those reaped, and signals no one |
| `Supervision.PostingOrderCarriesOver` | src/main.cpp:362-367 | The order in which main stops things, kept by the task queue, rules out a restart after the shutdown |
| `Supervision.ChildrenAreOnRecord` | src/supervisor/supervisor.cpp:498-502 | The positive process ids are distinct and are exactly the unreaped children |
| `Supervision.QueueIsShort` | src/supervisor/supervisor.cpp:263-269 | At most six failures are queued, exactly six in quarantine; what is out is marked down and has no child |
| `RateLimiter.Limiter.Allow` | src/gateway/rate_limiter.cpp:10-29 | The call does what `Decide` says, is refused exactly if the bucket that has to answer it has no token, and the table never exceeds its limit |
| `RateLimiter.RefusedExactly` | src/gateway/rate_limiter.cpp:10-43 | A tracked address is let in exactly if its bucket holds a token by now; a new one if there is room, without the buckets that are full by now, or if the shared bucket holds a token; the shared bucket is charged exactly when there is no room |
| `RateLimiter.NobodyIsLockedOut` | src/gateway/rate_limiter.cpp:16-23 | In any ordered run, of the calls for which there is no room at least as many get through as the shared bucket held whole tokens at the start, or all of them |
| `RateLimiter.NobodyStarves` | src/gateway/rate_limiter.cpp:24-43 | In any ordered run, whoever else calls, of the calls that an address's own bucket answers at least as many get through as it had whole tokens to its credit, or all of them |
| `RateLimiter.Limiter.Prune` | src/gateway/rate_limiter.cpp:45-59 | Erasing while iterating removes exactly the buckets that would be full |
| `RateLimiter.Limiter.Spend` | src/gateway/rate_limiter.cpp:31-43 | One lazy refill and at most one token spent |
| `RateLimiter.TableStaysBounded` | src/gateway/rate_limiter.cpp:16-25 | The table never exceeds its limit |
| `RateLimiter.PruningIsInvisible` | src/gateway/rate_limiter.cpp:14-28 | While pruning makes room, a run is decided as by a limiter that never prunes |
| `RateLimiter.PruningIsInvisibleExactly` | src/gateway/rate_limiter.cpp:14-28 | Every ordered run from an empty table with room is decided as by a limiter that never prunes, exactly when a burst is at least one or nothing is refilled |
| `RateLimiter.FullIsFresh` | src/gateway/rate_limiter.cpp:46-49 | A full bucket answers like a fresh one exactly when a burst is at least one |
| `RateLimiter.AdmitsAreBounded` | src/gateway/rate_limiter.cpp:14-43 | In any stretch of time an address gets at most twice a burst and refill through, and the shared bucket admits at most one for all addresses together |
| `RateLimiter.SmallBurstOvershoots` | src/gateway/rate_limiter.cpp:24-26 | A first call stays within the burst exactly when the burst is at least one |
| `RateLimiter.Conformance` | src/gateway/rate_limiter.cpp:31-43 | With instants in any order: between two granted calls of one bucket, at most a burst and the refill between their instants |
| `AutoCorrect.GreedyIsSound` | src/util/autocorrect.hpp:96-146 | The greedy cost is never below the optimal weighted distance with adjacent swaps, nor below the gaps that the lengths demand |
| `AutoCorrect.WalkApplies` | src/util/autocorrect.hpp:110-139 | The greedy walk is an edit script from input to word with exactly as many gaps as the lengths differ |
| `AutoCorrect.NoScriptIsCheaper` | src/util/autocorrect.hpp:13-23 | No edit script is cheaper than the optimum |
| `AutoCorrect.OptimumIsReached` | src/util/autocorrect.hpp:13-23 | Some edit script costs the optimum |
| `AutoCorrect.GreedyOvershoots` | src/util/autocorrect.hpp:16-21 | Two words whose greedy cost exceeds the optimum |
| `AutoCorrect.NoGaplessScriptIsCheaper` | src/util/autocorrect.hpp:110-139 | Of words of one length no script without gaps is cheaper than the greedy walk |
| `AutoCorrect.GreedyIsOptimalExactly` | src/util/autocorrect.hpp:16-21 | For words of one length the greedy cost is the optimum exactly when some cheapest script makes no gap |
| `AutoCorrect.Filter.FixHelper` | src/util/autocorrect.hpp:96-146 | The loop returns the cost of the greedy walk, or nothing when it exceeds the sensitivity; every index is in range |
| `AutoCorrect.Filter.constructor` | src/util/autocorrect.hpp:150-161 | Every bucket holds the words of its length in the order of the dictionary |
| `AutoCorrect.Filter.Fix` | src/util/autocorrect.hpp:164-201 | The result is the cheapest word of the whole dictionary within the sensitivity, of those the longest, of those the first inserted, or the input unchanged; said by place as well: the best word beats every other by its score, then its length, then its place in the dictionary |
| `AutoCorrect.FixIsUnique` | src/util/autocorrect.hpp:184-200 | That promise determines the result |
| `AutoCorrect.FixesByPlace` | src/util/autocorrect.hpp:184-200 | The promise by places in the dictionary: the input if every word scores above the sensitivity, else the word that beats all others |
| `AutoCorrect.WindowAgrees` | src/util/autocorrect.hpp:168-183 | Searching the length window is searching the whole dictionary |
| `AutoCorrect.OutsideNeverQualifies` | src/util/autocorrect.hpp:139-145 | A word outside the window costs more than the sensitivity |
| `AutoCorrect.FreeOnlyForItself` | src/util/autocorrect.hpp:43-83 | Nothing is charged exactly for a word of letters that differs in case at most |
| `AutoCorrect.DistanceOfKeys` | src/util/autocorrect.hpp:43-83 | Two letters are as far apart as the grid says of their keys, upper case or lower; a character on no key is far from everything |
| `AutoCorrect.KnownWordsAreFound` | src/util/autocorrect.hpp:164-201 | An input that is a word of the dictionary but for the case of its letters is corrected to such a word |
| `AutoCorrect.OneWrong` | src/util/autocorrect.hpp:136-138 | A word with one wrong letter costs the distance of the two letters |
| `AutoCorrect.TwoSwapped` | src/util/autocorrect.hpp:114-121 | A word with two neighbouring letters in the wrong order costs one |
| `AutoCorrect.OneMissingOrTooMany` | src/util/autocorrect.hpp:122-141 | A word with one letter missing or one too many costs two, exactly if what follows does not look like a swap |
| `AutoCorrect.FixingTwice` | src/util/autocorrect.hpp:164-201 | With a dictionary of letters only, fixing twice is fixing once |

## Left out

- The system calls themselves (epoll, timerfd, signalfd, fork and exec, connect, read, write): only the outcomes on which the code branches.
- OpenSSL and `TlsContext`: the transport is its `IoStatus`, with any blocked direction for reads and writes.
- The request parser (picohttpparser): any function that hands out pieces of the bytes it was given, at most 100 headers.
- A failing `epoll_ctl(MOD)`, which the code only logs: the mask counts as set.
- The idle timeouts' clocks and the byte counters: a timeout is an event that may come at any time.
- `render_health`, `render_uptime`: any text. `send_response` formats its head into 192 bytes, which all its callers' texts fit.
- The router: any predicate on host and path, and any outcome of opening the upstream socket.
- The two connections are one object, so which of them owns a field is not modelled; their pointers to each other are two flags.
- Proxy.Pair.ForwardBody: what the process does after the undefined read is not modelled; the flag says that it happened.
- That a changed mask has the kernel report a socket that is ready already is a promise of epoll and not modelled; the model notes the change.
- Health probes of the supervisor: they feed displays only.
- `last_failure_*`, `restart_count`, wall clocks and log lines of the supervisor: display only.
- SupervisorTrace.DelayAfterRuns: for service bounds with 1 <= min <= max; other bounds are accepted by the manifest parser and follow the code's branches without a closed form.
- The mutexes and threads: each loop is one thread, a post is one append, a limiter call is atomic apart from its early reading of the clock.
- Floating-point rounding in the limiter.
- The key distances of the spelling filter beyond being zero for equal letters only; `size_t` arithmetic near its maximum in `fix`.
- Control console, configuration parsers, connectivity monitor, connection cap, echo server: single-branch or text-only code that would add only easy members.
