# A verified model of the drizzle upstream module

The module lets nginx query MySQL and Drizzle servers: a request takes a connection
from a pool or opens one, sends SET NAMES where that is due and then its query, and
streams the result to the client in the Resty-DBD-Stream (RDS) format while it arrives.
This project models that behaviour in Dafny and proves what the module promises of it.

| file | part of the system |
|---|---|
| `Wrappers.dfy` | a value that may be missing |
| `Rds.dfy` | the byte format: encoding, a decoder that follows its description, round trips |
| `Buffers.dfy` | buffers on the heap, chains of them, and nginx on the client's side: header, output filter, events |
| `Output.dfy` | the response side: writing atoms, queueing, handing over, recycling, accounting |
| `Database.dfy` | the database library as an adversary: waits anywhere, fields cut into chunks at will |
| `Receiver.dfy` | the receive loops, suspension and resumption, the receive timeout |
| `SendPhase.dfy` | sending SET NAMES and the query, as a fold over the library's answers |
| `Connection.dfy` | a connection and the states of the protocol |
| `Pool.dfy` | the keepalive pool and the count of connections |
| `Request.dfy` | one request: finding a connection, failover, protocol, timers, all its events |
| `Worker.dfy` | one worker: any number of requests and idle connections, interleaved in any order |
| `Status.dfy` | the status page, written in two passes |

`dafny verify dfyconfig.toml` checks everything.

The objects of the source that change in place are classes whose methods are proved
against specification functions: `Output.Stream` (bytes consumed by the client and bytes
waiting), `Database.Prefix` (the encoding of what was read), `Pool.Stack` (idle
connections, newest first), `SendPhase.Run` (what a sequence of answers leads to). The
environment - the database library (`Database.Reader`), nginx on the client's side
(`Buffers.Nginx`) and the clock - chooses its answers freely within small contracts and
remembers them; a failure is always traced to one of them. `Worker.Run` puts all of it together.

Names of the invariants used below: `Receiver.Faithful` says that the stream is the
encoding of what was read, `Output.Agreed` that the client's filter has what it is thought
to have, `Output.WholeAtoms` that no atom is cut by the end of a buffer, `Receiver.Bounded`
bounds memory, `Receiver.TimeoutLaw` fixes the deadline, `Request.Settled` is the state
between two events, `Request.Justified` what a request may end with, `Request.Progress` says
that a step leaves other requests' connections alone, keeps histories, and turns to no
other connection or peer once SQL was submitted, `Request.OnePlace` says so of the whole
history of calls, and `Pool.Quiescent` is what a pooled connection must be.

## Where the code differs from what it promises

- `README.markdown:588` and `README.markdown:632` speak of a column list terminator.
  The code sends none, and the column count delimits the list. The model follows the code.
- Every wait for the database is guarded by a timeout but one (`TimerCoverage`). A SET
  NAMES that makes the driver wait and is then answered with error 1146 is followed by the
  user's query without a timer (`SendPhase.SendTimerGap`); `SendPhase.SendTimerCoverage`
  says that this is the only case.
- The round trip fails for texts of 2^16 bytes or more, whose length is truncated, and for
  fields of 2^32-1 bytes or more; `Rds.RoundTrip` says that it holds for all others.
- `README.markdown:401-402` lets the backlog exceed the threshold by one atom; the proved
  bound is strict, and unlike the source's own accounting it counts bytes, not capacities.
- The status page prints numbers in 32 bits but measures them in 64, so that it can fail
  for a counter of 2^32 or more; `Status.Report` says for which.

## Model

| member | source | states |
|---|---|---|
| `Worker.Worker.Run` | src/ngx_http_drizzle_upstream.c:539-912 | From a sound start, after any interleaving of arrivals, socket, timer and client events, and closings of idle connections: no request is lost; `active_conns` is the number of cached connections plus the number of requests that hold one; a refusing upstream never exceeds `max_cached`; and every request is `Sound` (see the next row) |
| `Worker.Worker.Take` | src/ngx_http_drizzle_util.c:889-919 | One thing that happens: an arrival adds a request, an event of a request is seen to, a closed idle connection is gone for good; the worker stays sound |
| `Worker.RestingIsSound` | src/ngx_http_drizzle_output.c:190-278 | Of every request between any two events, unless the client's side refused (`Nginx.refused`): the output filter was given a beginning of the encoding of the result, and the whole encoding, with nothing kept back, if the status is 200; the blocked flag is the filter's last answer; no full buffer waits to be offered. Always: every buffer in use was filled with whole atoms of that result (header, column, row flag, piece of a field with its length); live buffers are at most (max_buffered-1)/buf_size+2; unsent bytes are below max_buffered plus the latest atom; no peer is tried twice; no error page follows a header; a request that ended before any SQL was left by its client (499), could not be watched by nginx (500), was refused by a limited upstream (503), or has tried every peer (502, 504); all calls that sent SQL went to one connection, and from the first of them on no other connection or peer was turned to; and counting every call afresh that does not continue a wait on the same connection with the same statement, SET NAMES and the query were each submitted at most once |
| `Worker.Worker.EveryRequest` | src/ngx_http_drizzle_processor.c:37-131 | The same for all requests of the worker at once, whatever the others do |
| `Worker.Worker.Conservation` | src/ngx_http_drizzle_upstream.c:729-729 | `active_conns` counts exactly: cached plus held, and at most `max_cached` under overflow=reject |
| `Worker.HeldCount` | src/ngx_http_drizzle_upstream.c:946-955 | When no two requests hold the same connection, counting connections is counting requests |
| `Worker.Worker.HeldByAll` | src/ngx_http_drizzle_upstream.c:867-912 | The connections out of the pool are exactly those that some request holds |
| `Worker.Worker.Deliver` | src/ngx_http_drizzle_util.c:889-919 | An event of one request is seen to (next row) and leaves every other request, its buffers, their memory and its connection as they were |
| `Worker.Dispatch` | src/ngx_http_drizzle_handler.c:210-276 | No event that can occur is ignored: a broken socket, and a timer that is due, leave the connection for good (`LeftFor`); a sound socket makes the driver call the library, unless reading is suspended or the request is over; a client that can take more is offered more; a client that left ends the request. What cannot occur changes nothing, and a placeholder connection never stays behind |
| `Worker.Worker.Accept` | src/ngx_http_drizzle_handler.c:181-207 | A new request is started without disturbing the others, and is at rest or over when the content handler returns |
| `Worker.Worker.IdleClosed` | src/ngx_http_drizzle_keepalive.c:348-393 | The closing of an idle connection takes it out of the pool and off the count, for good, and leaves all requests alone; a stale event changes nothing |
| `Rds.IntRoundTrip` | src/ngx_http_drizzle_output.c:124-159 | Fixed-width integers are read back in either byte order |
| `Rds.PrologueRoundTrip` | src/ngx_http_drizzle_output.c:116-128 | A reader takes the byte order from the first byte and then reads version and result type in it |
| `Rds.StatusRoundTrip` | src/ngx_http_drizzle_output.c:130-147 | Error codes and text come back if, and only if, the text is shorter than 2^16 |
| `Rds.CountsRoundTrip` | src/ngx_http_drizzle_output.c:149-159 | Affected rows, insert id and column count come back |
| `Rds.ColumnRoundTrip` | src/ngx_http_drizzle_output.c:281-346 | A column comes back exactly when its name is shorter than 2^16 |
| `Rds.FieldRoundTrip` | src/ngx_http_drizzle_output.c:375-434 | A field comes back, NULL told from the empty string, exactly when it is shorter than 2^32-1 |
| `Rds.RowsRoundTrip` | src/ngx_http_drizzle_output.c:349-372 | The rows come back, and end at the zero flag, exactly when all fields fit |
| `Rds.TableRoundTrip` | README.markdown:532-621 | A result followed by anything is decoded to itself, leaving what follows, exactly when its lengths fit the format |
| `Rds.RoundTrip` | README.markdown:532-621 | Decoding the encoding recovers the result if and only if every length is within the 16 and 32-bit limits |
| `Rds.EncodingIsInjective` | src/ngx_http_drizzle_output.c:52-187 | Different results that fit never share a beginning: equal streams mean equal results and equal tails |
| `Rds.FullLengthFieldReadsAsNull` | src/ngx_http_drizzle_output.c:409-416 | The limit is tight: a field of 2^32-1 bytes is read back as NULL |
| `Output.Output.RequestMem` | src/ngx_http_drizzle_output.c:559-617 | Nothing happens if the current buffer has room. Otherwise room for the atom in one buffer, of the configured size or the atom's; a new buffer is made only when no consumed one is left; nothing of the stream is lost or overwritten, and buffers filled with whole atoms stay so; live buffers stay within those waiting plus two; failure means that the client's side refused |
| `Output.Output.SubmitMem` | src/ngx_http_drizzle_output.c:620-632 | The stream grows by exactly the atom that was written behind its end, whole, at the end of one buffer, and the atom is the next in the order of all; a full buffer joins the chain and any other stays |
| `Output.Output.MoveEnd` | README.markdown:625-636 | The atom goes whole into the current buffer, the other buffers are untouched, and if all were filled with whole atoms all still are |
| `Output.Output.StillWhole` | README.markdown:625-636 | Whatever becomes of the lists, buffers that keep what they were filled with keep their atoms whole |
| `Output.Output.QueueBuf` | src/ngx_http_drizzle_output.c:532-556 | A non-empty current buffer joins the chain, an empty one stays; order, content and the set of live buffers are unchanged |
| `Output.Output.OutputBufs` | src/ngx_http_drizzle_output.c:190-278 | Consumed bytes plus waiting bytes stay the same stream whatever the client takes; the buffers that remain are the last of those submitted, in their order, each still filled with whole atoms; what the filter was given is all that was consumed and all that is busy, and the blocked flag is its last answer; success hands over everything queued, and after the end of the stream the current buffer too; failure means that the client's side refused |
| `Output.Output.OfferChain` | src/ngx_http_drizzle_output.c:210-277 | The filter is called if the header is out, and never before; the buffers that remain are the last of those before; the backlog only shrinks, and is zero or else backed by unsent bytes |
| `Output.Output.PassOn` | src/ngx_http_drizzle_output.c:253-277 | One call of the filter: the blocked flag becomes its answer (NGX_AGAIN or bytes held back), what it was given is no longer queued, and a failure leaves the queue |
| `Output.Output.StartResponse` | src/ngx_http_drizzle_output.c:239-246 | The header is accepted, or the client's side has refused and it is not marked as sent |
| `Output.Output.UpdateChains` | src/ngx_http_drizzle_output.c:263-271 | Exactly the fully consumed head of the chain goes to the free list; waiting bytes are untouched |
| `Output.Output.Recount` | src/ngx_http_drizzle_output.c:271-275 | The recomputed backlog is the total capacity of the busy buffers |
| `Buffers.ConsumeChain` | src/ngx_http_drizzle_output.c:253-257 | Whatever the client takes is a beginning of what was waiting, and the rest is still there, in order |
| `Output.Output.UnsentIsCounted` | src/ngx_http_drizzle_output.c:635-645 | The accounted backlog is never less than the unsent bytes |
| `Output.Output.AllHanded` | src/ngx_http_drizzle_output.c:253-277 | When no buffer is queued and the current one is empty, the filter was given exactly the stream |
| `Output.Output.WaitingIsBounded` | src/ngx_http_drizzle_output.c:648-659 | Below the threshold at most (max_buffered-1)/buf_size buffers wait |
| `Output.Output.Put` | src/ngx_http_drizzle_output.c:403-422 | Bytes written past the end of the current buffer change nothing that the client is still to read |
| `Output.Output.TakeBuffer` | src/ngx_http_drizzle_output.c:581-611 | A recycled or new buffer of sufficient size whose memory no live buffer uses |
| `Output.Output.Adopt` | src/ngx_http_drizzle_output.c:613-616 | The buffer becomes the current one; an empty buffer that it replaces leaves the live set and nothing else |
| `Output.Output.OutputHeader` | src/ngx_http_drizzle_output.c:52-187 | On success exactly the header atom is added and no column means end of stream; on failure the stream is unchanged |
| `Output.Output.OutputCol` | src/ngx_http_drizzle_output.c:281-346 | On success exactly the column atom is added; on failure nothing |
| `Output.Output.OutputRow` | src/ngx_http_drizzle_output.c:349-372 | On success exactly the row flag is added, and zero marks the end of the stream |
| `Output.Output.OutputField` | src/ngx_http_drizzle_output.c:375-434 | On success the length, if first, and the bytes of the chunk are added; an announced field with no bytes yet adds nothing and is not an error; an error means that the client's side refused or that NULL came with bytes |
| `Database.ColumnStep` | src/ngx_http_drizzle_processor.c:321-361 | The encoding of what was read grows by the column atom |
| `Database.RowStep` | src/ngx_http_drizzle_processor.c:408-430 | It grows by the row flag, one for a row and zero at the end |
| `Database.ChunkStep` | src/ngx_http_drizzle_processor.c:459-494 | Whatever the chunking, each chunk takes the encoding of what was read exactly one chunk further |
| `Database.ChunkCompletes` | src/ngx_http_drizzle_output.c:384-422 | The chunks of a field add up to its length and its bytes, the length once |
| `Database.PrefixOfWhole` | src/ngx_http_drizzle_processor.c:304-522 | What has been read at any point encodes to a beginning of the whole response |
| `Database.Reader.FieldRead` | src/ngx_http_drizzle_processor.c:465-466 | The contract asked of the library: contiguous chunks of the field, of any sizes, with waits anywhere, every answer remembered |
| `Receiver.Receiver.ReceiveColumns` | src/ngx_http_drizzle_processor.c:304-375 | From any point of the columns, with waits anywhere: stops at a wait or a pause in a consistent position, or goes through to the last row; at every stop the stream is the encoding of what was read; it stops for a wait only if the library's last answer was one, and fails only if the client's side, nginx or the library did; a state that is entered starts its timeout now, and a resumed one goes on counting |
| `Receiver.Receiver.ReceiveRows` | src/ngx_http_drizzle_processor.c:378-522 | The same for the rows; finished means that all was read and written and no timer runs |
| `Receiver.Receiver.ReceiveRow` | src/ngx_http_drizzle_processor.c:399-508 | One row, resumed from wherever it was left |
| `Receiver.Receiver.ReceiveFields` | src/ngx_http_drizzle_processor.c:459-506 | The fields of one row, resumed in the middle of a field |
| `Receiver.Receiver.ReadField` | src/ngx_http_drizzle_processor.c:465-500 | Reads one chunk and writes it; a stalled field is passed over; an error is the library's or the client's side's |
| `Receiver.Receiver.OutputReady` | src/ngx_http_drizzle_output.c:648-710 | Reading goes on at once, with nothing touched, if the client's last answer did not hold it up and the backlog is below the threshold, and never otherwise; else all is offered first, and if the client is still behind reading is suspended, with nothing kept back |
| `Receiver.Receiver.Drain` | src/ngx_http_drizzle_output.c:747-787 | When the client takes more, reading resumes in the same state with the time that was left, and it stays suspended only while the client's last answer holds it up or unsent bytes reach the threshold: no deadlock |
| `Receiver.Receiver.Suspend` | src/ngx_http_drizzle_output.c:683-693 | What was left of the receive timeout is kept, rounded up to a millisecond, and no timer of the database connection runs |
| `Receiver.Receiver.Resume` | src/ngx_http_drizzle_output.c:771-782 | The timeout goes on with what was left |
| `Receiver.Receiver.WriteHeader` | src/ngx_http_drizzle_processor.c:278-300 | The header is the first thing sent; a result without columns is complete with it |
| `Receiver.Receiver.FlushRest` | src/ngx_http_drizzle_processor.c:535-543 | At the end everything, the current buffer too, is handed to the filter, unless the client's side refuses; the response is marked as begun only after its header was accepted or refused |
| `Receiver.Receiver.AllWritten` | src/ngx_http_drizzle_processor.c:525-562 | When all of the result was read and written and nothing is kept back, the filter was given exactly its encoding |
| `Receiver.Receiver.BeforeWrite` | src/ngx_http_drizzle_output.c:655-659 | Before any atom but the first the unsent bytes are below the threshold |
| `Pool.Pool.GetSingle` | src/ngx_http_drizzle_keepalive.c:144-187 | Takes the newest idle connection, or declines exactly when there is none |
| `Pool.Pool.GetMulti` | src/ngx_http_drizzle_keepalive.c:190-240 | Takes the newest idle connection to the address, and the others keep their order; or declines exactly when there is none |
| `Pool.Pool.Save` | src/ngx_http_drizzle_keepalive.c:280-335 | Refines a push on a bounded stack: newest on top, and the oldest is closed when full; a refusing pool never evicts |
| `Pool.Pool.Unlink` | src/ngx_http_drizzle_keepalive.c:156-162 | The item moves to the free queue, both queues still partition the items, and its connection is quiescent and in no other hands |
| `Pool.Pool.StoreHead` | src/ngx_http_drizzle_keepalive.c:297-335 | Item and connection refer to each other, at the head of the cache |
| `Pool.Pool.CloseIdle` | src/ngx_http_drizzle_keepalive.c:348-393 | Exactly the closed connection leaves the stack, the others keep their order, and the count falls by one; a stale event does nothing |
| `Pool.Pool.Open` | src/ngx_http_drizzle_upstream.c:708-729 | A new connection is counted and is in no other hands |
| `Pool.Pool.Destroy` | src/ngx_http_drizzle_upstream.c:946-962 | A held connection is closed once and never comes back; the count cannot underflow |
| `Pool.Pool.constructor` | src/ngx_http_drizzle_keepalive.c:116-141 | All items start in the free queue, which with the empty cache partitions them |
| `Pool.PushThenPop` | README.markdown:144-144 | LIFO: what was returned last is taken first, and the rest is as before unless the oldest had to go |
| `Pool.PartitionMove` | src/ngx_http_drizzle_keepalive.c:216-217 | Moving an item between the queues keeps every item in exactly one of them |
| `SendPhase.SendTimerCoverage` | src/ngx_http_drizzle_processor.c:213-233 | While sending waits, the send timeout runs if and only if SET NAMES was not answered with error 1146 after having made it wait |
| `SendPhase.SendTimerGap` | src/ngx_http_drizzle_processor.c:237-249 | The exception happens: wait, error 1146, wait leaves the request in wait without any timer |
| `SendPhase.StatementsOnce` | src/ngx_http_drizzle_processor.c:193-211 | Over any sequence of answers, a call after a wait being a continuation: each statement is begun at most once, SET NAMES first, and no result or 410 page is reached without the query. That such calls do continue the same statement on the same connection is the next row and `Request.QuerySubmittedOnce` |
| `SendPhase.SubmittedOnOne` | src/ngx_http_drizzle_processor.c:205-211 | If all calls are made on one connection, each with the statement then due, the statements sent afresh, on whatever connection, are exactly those begun |
| `SendPhase.NamesBeforeQuery` | src/ngx_http_drizzle_processor.c:284-292 | Where a charset is configured the query is submitted only after an earlier call answered SET NAMES |
| `SendPhase.RunShape` | src/ngx_http_drizzle_processor.c:179-296 | State of a run that is still sending, read off its answers |
| `Request.Request.GetPeer` | src/ngx_http_drizzle_upstream.c:568-591 | Single mode takes the newest idle connection and no peer; at the limit with nothing idle the result is the placeholder; every other attempt uses up a peer or an idle connection |
| `Request.Request.TryNextPeer` | src/ngx_http_drizzle_upstream.c:590-844 | Exactly one peer of the round robin is used; in multi mode the newest idle connection to it is taken if there is one |
| `Request.Request.PickPeer` | src/ngx_http_drizzle_upstream.c:590-605 | The peer under the request's own cursor, whatever other requests did to the shared one |
| `Request.Request.PeersTriedOnce` | src/ngx_http_drizzle_upstream.c:590-597 | A request tries each peer at most once |
| `Request.Request.OpenFresh` | src/ngx_http_drizzle_upstream.c:623-732 | No room means the placeholder, and only then; otherwise the outcome is the library's answer, or that nginx could not watch the socket |
| `Request.Request.FreePeer` | src/ngx_http_drizzle_upstream.c:867-912 | The connection is pushed on the pool exactly when its result was read to the end and nothing failed; otherwise it is closed, once and for good; without one nothing happens |
| `Request.Request.SaveConnection` | src/ngx_http_drizzle_keepalive.c:268-336 | Only a quiescent connection enters the pool, its use count one higher |
| `Request.Request.Finalize` | src/ngx_http_drizzle_util.c:115-222 | The connection is given back or closed, and the status is dropped if the header is out |
| `Request.Request.Next` | src/ngx_http_drizzle_util.c:225-272 | The failed connection is left for good. The search goes on exactly when nothing was sent, a peer is left and the client is there; otherwise the request ends with 499 if the client is gone, 504 after a timeout and 502 after any other failure. The recursion ends because peers left plus idle connections decrease; a retry after a release never gets a placeholder |
| `Request.Request.MoveOn` | src/ngx_http_drizzle_util.c:251-271 | The same from the moment the connection is released: another peer is tried if and only if the four conditions hold |
| `Request.Request.DbdConnect` | src/ngx_http_drizzle_util.c:555-716 | Every outcome of the search leads to a resting state; while peers are left one is tried or a connection taken; at the limit with nothing idle, to the placeholder |
| `Request.Request.StartConnectTimer` | src/ngx_http_drizzle_util.c:693-696 | The connect timeout runs from now |
| `Request.Request.Submit` | src/ngx_http_drizzle_processor.c:193-211 | One call of the query function, entered in the history with its connection; the query goes to a charset peer only when SET NAMES was answered once on that connection |
| `Request.Request.WaitToSend` | src/ngx_http_drizzle_processor.c:213-229 | The send timeout starts on entering the state and is left alone on re-entry |
| `Request.Request.NamesAnswered` | src/ngx_http_drizzle_processor.c:244-291 | SET NAMES completes at most once on a connection over all its requests |
| `Request.Request.OnNamesReply` | src/ngx_http_drizzle_processor.c:235-292 | An error answer is a 500 page, a refused SET NAMES a failure; error 1146 or an accepted answer is followed by the query as the next statement sent |
| `Request.Request.OnQueryReply` | src/ngx_http_drizzle_processor.c:235-300 | Error 1146 ends the request with status 410 and the connection on top of the pool; other errors give the 500 page; a result is taken, and given up only if the client's side, nginx or the library failed |
| `Request.Request.SendStatement` | src/ngx_http_drizzle_processor.c:179-301 | The statement that is due is sent first; ends in a resting state, a finished request, or a failure that still holds the connection |
| `Request.Request.ContinueConnect` | src/ngx_http_drizzle_processor.c:134-176 | The library's answer decides: ready means that SQL is sent, a wait that nothing else changes, an error that the step fails |
| `Request.Request.Conclude` | src/ngx_http_drizzle_processor.c:436-454 | The last row, with the reader at the end of the result, ends the request; the second check for an outstanding SET NAMES is dead code |
| `Request.Request.Finish` | src/ngx_http_drizzle_processor.c:525-562 | For a 200 response the filter was given exactly the encoding of the result and nothing is kept back, or the client's side has refused; with a pool, the connection is then on top of it |
| `Request.Request.ProcessEvents` | src/ngx_http_drizzle_processor.c:37-131 | While output is suspended the database is not read and nothing changes. Otherwise the library is called, or reading is suspended now, or the request is over for a reason: complete, refused by the server, or failed by the library or the client's side. When the database is waited for, every full buffer has been offered to the client |
| `Request.Request.StepFailed` | src/ngx_http_drizzle_processor.c:101-111 | An error leaves the connection as `Next` says; a page status ends the request |
| `Request.Request.Handle` | src/ngx_http_drizzle_handler.c:181-207 | The placeholder never survives the content handler; at the limit with nothing idle the answer is 503 |
| `Request.Request.ReadTimeout` | src/ngx_http_drizzle_handler.c:258-264 | It strikes only while receiving unpaused, once the reading time reached the limit plus what short pauses rounded up, and ends the request with 504, or 499 if the client is gone |
| `Request.Request.ReadTimerMeansReceiving` | src/ngx_http_drizzle_output.c:683-687 | The deadline is the start plus what is left of the limit, plus the rounding of short pauses and the lateness they absorbed |
| `Request.Request.WriteTimeout` | src/ngx_http_drizzle_handler.c:223-230 | The connection is left for good; only a connect timeout lets another peer be tried, and does if the client is there and a peer is left |
| `Request.Request.SocketEvent` | src/ngx_http_drizzle_handler.c:232-241 | A broken socket is left as `Next` says. On a sound one the protocol goes on: a query that waits is continued, the library is called, and while output is suspended nothing changes |
| `Request.Request.ClientWritable` | src/ngx_http_drizzle_output.c:713-789 | A client timeout ends the request with status 408; a delayed client is only watched again; otherwise it is offered more, and then reading goes on, stays suspended, or the request is over for a reason |
| `Request.Request.ClientAborted` | src/ngx_http_drizzle_util.c:734-865 | The connection in use is closed for good with status 499, and the pool is left as it was |
| `Request.Request.TimerCoverage` | src/ngx_http_drizzle_processor.c:218-397 | Unpaused, a request at rest is connecting, sending or receiving, and exactly one timer of the database connection runs, the one for that state (but for the gap above); paused, none |
| `Request.Request.QuerySubmittedOnce` | src/ngx_http_drizzle_util.c:257-271 | In every state of a request: all calls that sent SQL were made on the connection it turned to last, no peer was tried and no connection turned to since the first of them, and SET NAMES and the query were each sent afresh at most once, over all connections together |
| `Request.Request.CharsetDiscipline` | src/ngx_http_drizzle_processor.c:193-203 | No call in the life of a request, answered at once or not, sent the query on a connection of a charset peer before its SET NAMES was answered, exactly once |
| `Status.GetNumSize` | src/ngx_http_drizzle_util.c:1046-1057 | The loop counts the decimal digits |
| `Status.DigitCount` | src/ngx_http_drizzle_util.c:1046-1057 | A number has at most k digits exactly when it is below 10^k |
| `Status.DigitsRoundTrip` | src/ngx_http_drizzle_handler.c:536-543 | The digits determine the number |
| `Status.PrintedWidth` | src/ngx_http_drizzle_handler.c:557-561 | Printing in 32 bits never widens a number, and keeps its width exactly below 2^32, or below 10^10 with a remainder of ten digits |
| `Status.PageWidth` | src/ngx_http_drizzle_handler.c:409-642 | The printed page is never longer than the measured one, and as long exactly when every number keeps its width |
| `Status.Measure` | src/ngx_http_drizzle_handler.c:409-517 | The first pass computes the length of the page with all numbers in full |
| `Status.Area.Fill` | src/ngx_http_drizzle_handler.c:519-632 | The second pass writes the page and never leaves the area of the first pass's length |
| `Status.Report` | src/ngx_http_drizzle_handler.c:392-642 | The page is sent exactly when every number on it keeps its width in 32 bits, and is then the printed page |
| `Status.SmallNumbers` | src/ngx_http_drizzle_handler.c:634-642 | With all numbers below 2^32 the page is sent, with every number in full |
| `Status.OverflowShown` | src/ngx_http_drizzle_keepalive.c:85-99 | The page shows the very word that configures the overflow setting |
| `Status.LargeNumber` | src/ngx_http_drizzle_handler.c:606-606 | From 2^32 on it can be lost: here for an item of the pool used that often |

## Left out

- Allocation failure: every allocation is taken to succeed.
- The column type table (`src/ngx_http_drizzle_output.c:437-529`): any function into 16 bits in its place.
- Strings with a zero byte inside: error text and column names are taken as they end.
- The database library, sockets and nginx event registration: their return codes are chosen freely, within the contract of `Database.Reader`; whether error 1146 or another answers a query is free at each call (`Request.Submit`).
- The output filter is nginx's; the model has its contract (`Nginx.Filter`), by which buffers are consumed from the front of the chain on.
- A database that never stops sending empty first chunks of one field: each result has some finite number of them.
- Fields of one chunk longer than 2^32-1 bytes: the library is taken to cut them.
- Nested result objects of the library and when they are freed.
- `ngx_queue_t` as linked nodes: the two queues are sequences of item numbers; the counting loop of `queue_size` becomes the length of a sequence.
- The item of an evicted connection is reused directly by the source; in the model it passes through the free queue first, within the same call.
- Connections as objects: a connection is a value in its holder's hands, and the back pointer of an idle one is the map `owner`. Aliasing of a connection by two requests is excluded by an invariant, not by its representation.
- nginx's lazy re-arming of timers, and the wrap-around of the millisecond clock.
- The client's own send timer and socket events: only whether it fired reaches `Request.ClientWritable`.
- Several upstreams in one worker: they have no state in common, and the model has one.
- When the client's connection breaks: `Nginx.ClientGone` finds it broken or not, freely, and then for good.
- After a request is over, what nginx itself still writes of its response.
- Resolving names, request headers and bodies, complex values, variables and configuration, but for the two checks on buffer sizes; the request's reinitialisation before a retry touches none of the modelled state.
- Code for nginx before 0.8.17 and wrapping by nginx's own keepalive module.
- The response status 404 in the pool's own test, which the driver never sets.
- Perl tests, build scripts, logging, and the stubs in `src/ngx_http_drizzle_checker.c` and `src/ngx_http_drizzle_quoting.c`.
