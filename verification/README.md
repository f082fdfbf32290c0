# Verification of the linear-cpp engine

linear-cpp is an asynchronous msgpack-rpc library. This project models its hard parts in Dafny and
proves what they promise:

- the connection and request engine of one socket: its four states, the queue of messages accepted
  before the connection is up, the table of outstanding requests and their timers, and the callbacks;
- the one-shot timer object;
- digest (and basic) authentication, from the server's challenge to its verdict, with one-time nonces
  and the client's bounded automatic reconnect;
- the pool of sockets a server retains and the groups sockets join;
- the dynamic value type `any`: its printer, its order, and its deep copy.

Run `dafny verify dfyconfig.toml` in this directory.

## How the engine is modelled

`Protocol.dfy` gives the engine of one socket as a transition system. A step is one stretch of code that
runs without giving up the state mutex: application threads, and handlers while a callback is running,
may call Connect, Disconnect and Send between any two stretches of a loop callback, so a list of steps is
a thread interleaving. `pc` says where the loop thread goes on. A Send that has just written a request keeps
the state mutex while it pushes the timer entry (`sending`) and then starts the timer (`starting`); the loop thread may
report writes and decode responses before, between and after. The history (`trace`) records what the handler, the
heap and the transport saw; `Ledger.dfy` counts over it, without looking at the fields of the socket. An
action that cannot happen in a state leaves the state alone, so theorems about runs speak of every list of
actions. Theorems about what becomes of a request speak of *fresh* runs: no request is sent under the id of one still in
play, as the library supposes of its ids, and no RequestTimer fires that was freed, which has no defined outcome.

`SocketObject.dfy` is the object: the fields of the class, updated in place, one method per stretch of code, and the
whole loop callbacks put together from them. Each method moves the snapshot of the object exactly as the
transition system does, and `Drive` performs a whole run, so the theorems about runs hold of every object.

The transport library is not part of the repository. Its contract is in `Protocol.Enabled`: a callback comes only for
something under way, loop callbacks run one at a time, `tv_read_start` succeeds (the source asserts it,
`src/socket_impl.cpp:294`), no handshake report comes after `tv_close`, and the close callback comes once, after every
write of the stream has completed. What the transport, the pool and the random source answer are parameters of the
actions.

The other parts follow the same pattern: a function or a step function that says what happens, run theorems about it,
and a class or a method with the loops of the source proved against it. MD5 and base64 are parameters: theorems that
need it assume that hash values are words without comma, equals sign, quote or space, as hexadecimal is.

## What turned out not to hold

Each of these is a lemma with the situation in which the code does otherwise, beside the exact condition under
which the promise is kept.

- A request can hear two terminal callbacks: a timeout, then the report of its failed write
  (`Limits.TwoReports`; exactly when: `ExactlyOnce.HeardExactlyOnce`).
- A RequestTimer can be started, and fire, after it was freed: Send gives up the mutex of the table between the push of
  the entry and the start of the timer, and the report of a failed write takes only that mutex
  (`Limits.TimerStartedAfterFree`; exactly when: `Registration.ArmedExactly`, and for the one about to fire
  `Registration.FiresFreedExactly`; with none started so, distinct ids make a run fresh: `Registration.OnTimeIsFresh`).
- The pool and the state of a socket disagree after a Connect that lands between the moment OnDisconnect gives up the
  mutex and the moment it leaves the pool (`Membership.RaceHappens`; exactly when: `Membership.PoolAgreement`).
- An automatic reconnect whose Connect is refused ends the close without OnDisconnect, and the queue stays
  (`Reconnect.RefusedRetryIsSilent`; when the Connect succeeds: `Reconnect.RetryCarriesQueue`).
- Messages do not always go out in acceptance order: a Send from another thread can overtake the queue
  (`Limits.SendOvertakesQueue`; exactly when: `Overtaking.InOrderExactly`).
- OnDisconnect can be told LNR_OK for a connection that failed: another thread that connects while the close is under
  way, and disconnects that connection before the report, resets the error the report reads (`Limits.FailureReportedOk`;
  exactly when: `LastErrors.DisconnectReason`, `LastErrors.ReasonToldExactly`).
- LNR_OK is also reported when undecodable data closed the connection (`Limits.MalformedClosesOk`).
- User names, realms and uris with a comma or an equals sign do not survive the header parser, so a client with a
  `key=value` query string is never authorised by digest (`Admission.QueryNeverAuthorised`; exactly what survives:
  `Authentication.ArrivesExactly`, exactly who is let in: `Authentication.RightPasswordExactly`, and of basic
  credentials `Admission.BasicArrives`).
- A client keeps its last Authorization header: reconnecting after a successful login presents the used nonce
  (`Login.DigestLogin`; exactly when a reconnect is VALID: `Login.ReconnectValidExactly`).
- A socket that joins a group while it is being released, or while Stop clears the pool, stays in the group without
  being retained (`Agreement.JoinDuringRelease`, `Agreement.JoinDuringStop`; exactly which do:
  `Agreement.StraysExactly`).
- A limit can be lowered below the size of the pool (exactly when the size stays within it: `Agreement.LimitHolds`).
- Two BIN values with different contents, or a double and an integer that print alike, are neither less nor greater
  (`Values.BinariesIncomparable`, `Values.DoubleIncomparable`; exactly which are: `Values.OrderOfValues`).
- A Stop of a timer can come too late for its callback (`TimerObject.StopMayComeLate`), and a Start between the Stop of
  OnTimer and its callback has its own callback run at once (`TimerObject.StartMayComeEarly`).
- `include/linear/server.h:30` documents the default client limit as 0; the code starts with the largest size_t
  (`src/socket_pool.h:14`), which limits as little. The model follows the code.

## Model

| member | source | states |
|---|---|---|
| Delivery.RequestConservation | src/socket_impl.cpp:205-244 | in every fresh run an accepted message is in exactly one place (queue, being reported, timer table, being cancelled, about to be registered) or discharged once; a request has one terminal callback if discharged, none if not, plus one per failed write reported without an entry |
| Delivery.SettledAtDisconnect | src/socket_impl.cpp:836-874 | in every fresh run, when the close is about to be reported and nobody connected meanwhile, both collections are empty, every message ever accepted is discharged, every heap copy and timer freed, and each request has heard exactly one terminal callback besides orphaned write reports |
| Results.AcceptedExactly | src/socket_impl.cpp:205-244 | in every run, fresh or not, the messages accepted, those all these theorems speak of, are exactly the ones whose Send answered LNR_OK |
| Results.SendAnswer | src/socket_impl.cpp:205-244 | one Send answers LNR_OK if and only if it accepted the message; otherwise queue, table and transport are as they were, and the copy, if one was made, is freed |
| Delivery.OrphanExactly | src/socket_impl.cpp:626-650 | in a state reached by a fresh run, a failed write is reported without a timer entry if and only if the request was settled before or its Send has not pushed the entry yet |
| ExactlyOnce.OrphansExactly | src/socket_impl.cpp:626-650 | over a fresh run, some failed write of a request was reported without an entry if and only if one was taken while the request was settled or not yet registered |
| ExactlyOnce.HeardExactlyOnce | src/socket_impl.cpp:836-874 | in every fresh run, when the close is about to be reported and nobody connected meanwhile, the handler has heard of each accepted request at least once, and exactly once if and only if no such write was taken |
| HeapCopies.CopiesFreedOnce | src/socket_impl.cpp:210-238 | in every run, fresh or not, a heap copy Send made is queued, with the transport, or freed, exactly one of these and once, and a copy it did not make is in none |
| Delivery.TimersFreedOnce | src/event_loop_impl.cpp:103-110 | in every fresh run every written request has one RequestTimer: in the table, being cancelled, about to be pushed, or freed once |
| Registration.ArmedExactly | src/socket_impl.cpp:784-789 | in every fresh run, between callbacks, an armed timer has its entry in the table and is not freed, if and only if it was not started after a failed write of its request, or a response to it, came between the push of the entry and the start |
| Running.RunningExactly | src/socket_impl.cpp:784-789 | in every fresh run a request with an entry has its timer armed, so that its timeout can come, if and only if that timer was started, by its Send or by the flush that wrote it |
| Registration.FiresFreedExactly | src/event_loop_impl.cpp:103-110 | after every fresh run, a timer about to fire was freed if and only if it was started so |
| Registration.OnTimeIsFresh | src/socket_impl.cpp:784-789 | a run with distinct ids in which no timer is started so is fresh |
| Responses.ResponseFindsRequest | src/socket_impl.cpp:552-580 | in every fresh run, whatever the interleaving, a response whose request was written before the chunk was read, and is not settled, is delivered to that very request and frees its timer |
| Responses.RequestIsAnswered | src/socket_impl.cpp:772-789 | for every id, a fresh run that meets those premises: sent, registered, answered |
| StreamBooks.OneClosePerStream | src/socket_impl.cpp:192-203 | per stream: tv_close at most once, one close callback per tv_close, one outcome per close (reported, suppressed or retried), at most one OnConnect, and no cancellation after the outcome |
| Lifecycle.EpochPath | src/socket_impl.cpp:142-203 | in every run of a client each epoch goes through CONNECTING, optionally CONNECTED, DISCONNECTING and DISCONNECTED, in that order and as far as it has come, and one that was followed by another went all the way |
| Results.OpenedExactly | src/socket_impl.cpp:142-190 | in every run the streams opened are exactly those for which a Connect, of the application or automatic, answered LNR_OK |
| Results.ConnectAnswer | src/socket_impl.cpp:142-190 | one Connect answers LNR_OK if and only if it opened a stream, on which the socket is CONNECTING; otherwise only the pool can have changed |
| Callbacks.StateExactly | src/socket_impl.cpp:308-413 | in every run the state is where the calls and the reports of the transport, read off the actions, have led |
| Callbacks.ConnectTimerExactly | src/socket_impl.cpp:172-190 | in every run, while the transport is connecting, the connect timer runs if and only if the last Connect that succeeded asked for one and it started, the automatic reconnect asking for what that Connect did |
| Callbacks.ConnectedReads | src/socket_impl.cpp:292-356 | in every run a socket that is CONNECTED has its stream read |
| Callbacks.EndCloses | src/socket_impl.cpp:320-348 | a failed connect, handshake or read, or data that cannot be decoded, closes a connection that is still up or coming up |
| Lifecycle.AcceptedPath | src/socket_impl.cpp:70-95 | an accepted socket has one epoch, which goes the same way, for TCP from CONNECTED on |
| Lifecycle.StateFollowsStream | src/socket_impl.cpp:308-349 | DISCONNECTING lasts exactly from the decision to close to the close callback, DISCONNECTED means no stream, and an armed connect timer means CONNECTING |
| Lifecycle.ServerStaysDisconnected | src/socket_impl.cpp:142-147 | an accepted socket never leaves DISCONNECTED |
| LastErrors.DisconnectReason | src/socket_impl.cpp:472-478 | in every run, OnDisconnect is told LNR_OK if a connection opened during the close was disconnected before the report, and otherwise the last failure of that stream's transport, which is LNR_OK exactly when there was none |
| LastErrors.ReasonToldExactly | src/socket_impl.cpp:192-203 | in every run, the error a close is about to report is the reason its stream ended, if and only if the stream did not fail or nobody did that |
| Callbacks.FaultsExactly | src/socket_impl.cpp:320-348 | in every run the failure recorded of a stream is the last one the transport reported for it, LNR_ETIMEDOUT when the connect timer fired |
| Callbacks.SuppressedExactly | src/socket_impl.cpp:386-397 | in every run the handler does not hear of a close if and only if the handshake was not through or failed, and neither the application nor data that could not be decoded closed the connection since |
| Callbacks.AlwaysReported | src/socket_impl.cpp:472-478 | so a close of a client, or of an accepted TCP socket, that is not followed by a reconnect is always reported |
| Reports.CancellationsFirst | src/socket_impl.cpp:472-475 | no cancellation raised by a close comes after the OnDisconnect of that close |
| Retry.AtMostOneRetry | src/ws_socket_impl.cpp:104-126 | whatever replies come and whoever interferes, one Connect of the application causes at most one automatic reconnect, and the nonce count stays within 0..0xfffe |
| Callbacks.RetriesExactly | src/socket_impl.cpp:418-443 | in every run a close is followed by the automatic reconnect if and only if the socket is a WebSocket client told that its handshake was refused, and the last reply was 401 with a digest challenge counted as the first |
| Reconnect.RetryHappens | src/ws_socket_impl.cpp:123-126 | a run with one automatic reconnect |
| Reconnect.RetryCarriesQueue | src/socket_impl.cpp:418-435 | whatever others do between the close callback and the reconnect, one whose Connect succeeds takes the queue and the timer table into the next epoch as they were at the close, with neither OnError nor OnDisconnect |
| Reconnect.RefusedRetryIsSilent | src/socket_impl.cpp:422-434 | a reconnect whose Connect is refused, for want of room, by the transport, or because the application connected first, reports nothing and leaves the collections as they were |
| Membership.PoolAgreement | src/socket_impl.cpp:412-417 | off the way from the mutex to the pool, a socket is in the pool exactly when it is not DISCONNECTED, if and only if it is DISCONNECTED or the last Connect of the run that succeeded was not taken in that window |
| Membership.PoolFollowsState | src/socket_impl.cpp:162-190 | in a run without a Connect in that window, in the pool exactly when not DISCONNECTED |
| Membership.ConnectBeforeRelease | src/socket_impl.cpp:413-417 | a Connect in that window succeeds and ends up outside the pool |
| Membership.RaceHappens | src/socket_impl.cpp:413-417 | such a run exists |
| Queueing.QueueSplitsInOrder | src/socket_impl.cpp:793-834 | in every run the messages accepted while connecting, in acceptance order, split into two complementary subsequences: those handed to tv_write, in that order, and those reported unwritten followed by those being reported and those pending |
| Lines.Separates | src/socket_impl.cpp:797-808 | two increasing sequences that together have the elements of a third are its complementary subsequences |
| Overtaking.InOrderExactly | src/socket_impl.cpp:378-383 | in every run all messages, queued and direct, reach tv_write in the order of acceptance, if and only if none is sent directly while one that is written later is pending |
| Overtaking.WaitingKeepsOrder | src/socket_impl.cpp:378-383 | which holds when nobody calls Send between the moment the socket is CONNECTED and the flush |
| Overtaking.AddressesFollowAcceptance | src/socket_impl.cpp:205-233 | the order of the copies' addresses is the order in which Send accepted the messages |
| Limits.TimeoutThenFailedWrite | src/socket_impl.cpp:637-648 | a failed write after the timeout of its request is a second terminal callback |
| Limits.TwoReports | src/socket_impl.cpp:637-648 | a run from an accepted connection in which that happens |
| Limits.TimerStartedAfterFree | src/socket_impl.cpp:784-789 | a run in which a failed write comes between push and start: what is armed at the end was freed |
| Limits.DuplicateIdStealsTimer | src/socket_impl.cpp:638-648 | with one id in use twice a failed write deletes the timer of the other request |
| Limits.ChunkOutlivesDisconnect | src/socket_impl.cpp:492-500 | later messages of a chunk are delivered after a Disconnect in the handler |
| Limits.SendOvertakesQueue | src/socket_impl.cpp:378-383 | between CONNECTED and the flush a direct Send overtakes what is queued |
| Limits.FailureReportedOk | src/socket_impl.cpp:192-203 | a run of a client in which a connect fails and, after a Connect and a Disconnect during its close, is reported with LNR_OK |
| Limits.MalformedClosesOk | src/socket_impl.cpp:605-623 | undecodable data closes the connection with last error LNR_OK |
| SocketObject.SocketImpl.constructor | src/socket_impl.cpp:48-67 | a client object starts as the transition system does |
| SocketObject.SocketImpl.Accept | src/socket_impl.cpp:70-95 | an accepted object starts as the transition system does, a WebSocket with its handshake to finish |
| SocketObject.SocketImpl.Connect | src/socket_impl.cpp:142-190 | the error by what refused it, and LNR_OK exactly when a stream was opened |
| SocketObject.SocketImpl.Disconnect | src/socket_impl.cpp:192-203 | closes a live socket once, with LNR_OK, and only marks the handshake otherwise |
| SocketObject.SocketImpl.Send | src/socket_impl.cpp:205-244 | queued while connecting, written while connected, refused otherwise, with the copy made and freed accordingly; LNR_OK exactly when the message was accepted, and otherwise LNR_ENOTCONN, LNR_EINVAL or the error of the write, with everything left as it was |
| SocketObject.SocketImpl.SendCopy | src/socket_impl.cpp:234-238 | the copy goes to the transport, or is freed when it is refused |
| SocketObject.SocketImpl.PushEntry | src/socket_impl.cpp:785-787 | the entry of the request just written is pushed |
| SocketObject.SocketImpl.StartTimer | src/socket_impl.cpp:788-788 | its timer is started, whether or not the entry is still there |
| SocketObject.SocketImpl.OnConnectLocked | src/socket_impl.cpp:309-373 | cancelled, failed or connected, by state and status |
| SocketObject.SocketImpl.OnConnectReturned | src/socket_impl.cpp:378-383 | CONNECTED only if still CONNECTING after the handler ran |
| SocketObject.SocketImpl.OnHandshakeComplete | src/socket_impl.cpp:386-397 | CONNECTED on success, to be closed as handshaking on failure |
| SocketObject.SocketImpl.FlushPending | src/socket_impl.cpp:794-808 | the loop over the queue does what the recursive flush does, starting the timers of the requests it writes |
| SocketObject.SocketImpl.SendPendingMessages | src/socket_impl.cpp:793-834 | undisturbed, in whatever state: of a connected socket the messages the transport takes are written in order, all others are reported and freed in order, and the queue is empty |
| SocketObject.SocketImpl.FindEntry | src/socket_impl.cpp:565-568 | the loop finds the first entry with the id |
| SocketObject.SocketImpl.ReadNext | src/socket_impl.cpp:532-623 | one decoded object is delivered, matched, or closes the connection |
| SocketObject.SocketImpl.OnWrite | src/socket_impl.cpp:626-663 | the entry of a failed request goes with its timer, the failure is reported, the copy is freed |
| SocketObject.SocketImpl.OnRequestTimeout | src/socket_impl.cpp:669-685 | the entry goes, the timeout is reported, the timer is freed |
| SocketObject.SocketImpl.OnDisconnectLocked | src/socket_impl.cpp:399-413 | DISCONNECTED once per close |
| SocketObject.SocketImpl.DecideOnRetry | src/socket_impl.cpp:418-443 | retried only by a WebSocket client refused for its authorization, else marked unavailable |
| SocketObject.SocketImpl.DiscardMessages | src/socket_impl.cpp:836-874 | both collections are emptied, the queue reported before the requests, each with its own free |
| SocketObject.SocketImpl.OnDisconnect | src/socket_impl.cpp:399-478 | undisturbed, the whole history of a close: retried with the queue as it was, or everything outstanding cancelled in order and then the outcome, with nothing left |
| SocketObject.SocketImpl.Dispatch | src/event_loop_impl.cpp:73-110 | every callback and call moves the object as one step of the transition system |
| SocketObject.SocketImpl.Drive | src/event_loop_impl.cpp:73-110 | a whole schedule moves the object as the run, so what holds of runs holds of objects |
| TimerObject.HandlesClosedOnce | src/timer_impl.cpp:38-83 | in every run of starts, stops, expiries, deliveries and callbacks, from other threads and from inside the callback: per handle, fired at most once per start and only when closed, closed at most once, exactly once unless it is running, and freed when it did not start |
| TimerObject.FiredAtMostStarted | src/timer_impl.cpp:78-83 | in every run callbacks fired, about to fire and still to come never exceed successful starts |
| TimerObject.StopMayComeLate | src/timer_impl.cpp:68-83 | a Stop between expiry and delivery does not keep the callback from running |
| TimerObject.StartMayComeEarly | src/timer_impl.cpp:78-83 | a Start between the Stop of OnTimer and its callback: the new callback runs for the old expiry |
| TimerObject.TimerImpl.Start | src/timer_impl.cpp:38-66 | refused while started; otherwise a handle is allocated, and freed if it cannot be started |
| TimerObject.TimerImpl.Stop | src/timer_impl.cpp:68-76 | closes the handle of a started timer only |
| TimerObject.TimerImpl.OnTimer | src/timer_impl.cpp:78-83 | what is running is stopped, other threads start and stop it, and the callback set last runs, with the starts and stops during it in order |
| Text.PiecesHaveNoSeparator | src/auth_context_impl.cpp:15-32 | no piece contains the separator |
| Text.JoinSplit | src/auth_context_impl.cpp:15-32 | joining the pieces gives the input back, but for one trailing separator |
| Text.SplitJoin | src/auth_context_impl.cpp:15-32 | pieces that were joined are split back, if the last is not empty |
| Text.PieceCount | src/auth_context_impl.cpp:20-30 | one piece more than separators, but none after a trailing separator |
| Text.SplitString | src/auth_context_impl.cpp:15-32 | the loop with find_first_of from a moving index splits so |
| Headers.QuoteTrimming | src/auth_context_impl.cpp:47-49 | the wrapping size_t arithmetic never starts past the end and yields the text between the first and the last quote, after a single quote, or all of it |
| Headers.TrimQuotes | src/auth_context_impl.cpp:47-49 | trims in that arithmetic |
| Headers.ParseHeader | src/auth_context_impl.cpp:34-54 | the loop keeps the first value of each key and drops pieces that are not pairs |
| Headers.ParsedIsClean | src/auth_context_impl.cpp:34-54 | whatever the text, no value read holds a comma or an equals sign |
| Headers.ParsePrinted | src/auth_context_impl.cpp:34-54 | a printed list of plain pairs is read back as what it means |
| Headers.FirstWins | src/auth_context_impl.cpp:34-54 | of the pairs of one key the first that is read at all counts |
| Headers.PairExactly | src/auth_context_impl.cpp:38-41 | exactly which pieces are read as pairs, by their equals signs |
| Headers.KeyExactly | src/auth_context_impl.cpp:42-43 | a key counts in whatever case it is written and wherever it holds spaces |
| Digest.IsRequestDigest | src/auth_context_impl.cpp:75-129 | with nonce count, client nonce and qop, what is computed is the request-digest of section 3.2.2.1 of RFC 2617 for qop auth |
| Digest.WithoutQopDiffers | src/auth_context_impl.cpp:100-105 | without qop it is not the form of that section, because the nonce count is hashed |
| Digest.CalcDigestInBuffers | src/auth_context_impl.cpp:75-129 | the buffer built step by step hashes to the digest |
| Digest.PrintChallenge | src/ws_server_impl.cpp:218-256 | the text appended piece by piece is the challenge header |
| Digest.ChallengeRead | src/auth_context_impl.cpp:207-227 | the client reads nonce, algorithm and qop of a printed challenge back, and a realm without a comma unless it holds an equals sign |
| Authentication.NcReads | src/auth_context_impl.cpp:262-269 | the nonce count is sent as eight hexadecimal digits that read back as the count |
| Authentication.AuthenticateContextImpl.constructor | src/auth_context_impl.cpp:207-227 | reads a challenge by scheme |
| Authentication.AuthenticateContextImpl.CreateAuthorizationHeader | src/auth_context_impl.cpp:232-293 | the header appended piece by piece is the answer to the challenge, or empty where none can be made |
| Authentication.AnswerMadeExactly | src/auth_context_impl.cpp:232-293 | an answer is made if and only if there is a user and the scheme is basic, or digest with a nonce, a uri and no algorithm but MD5 |
| Authentication.AuthorizationContextImpl.constructor | src/auth_context_impl.cpp:132-171 | reads an answer by scheme |
| Authentication.SchemeExactly | src/auth_context_impl.cpp:132-171 | the scheme of a header, of a challenge as of an answer, is its first word in whatever case |
| Authentication.AuthorizationContextImpl.Validate | src/auth_context_impl.cpp:176-186 | the verdict on a password, by scheme: basic by comparison, digest by its hash and only with a user, INVALID for an unknown scheme |
| Authentication.AuthorizationContextImpl.ValidateWithHash | src/auth_context_impl.cpp:188-204 | INVALID unless nonce, uri and response are there and the response is the digest of that hash; then VALID or AMBIGUOUS by the nonce |
| Authentication.AnswerRead | src/auth_context_impl.cpp:157-167 | to a challenge with or without qop and algorithm, the server reads the pairs of an answer as the client meant them, but for values with an equals sign, which it reads as empty |
| Authentication.ChallengeToVerdict | src/auth_context_impl.cpp:249-290 | printed challenge, read, answered, read: every value arrives, the response is the RFC 2617 request-digest, the right password is VALID while the nonce is good and AMBIGUOUS after, another is INVALID unless it hashes alike |
| Authentication.ArrivesExactly | src/auth_context_impl.cpp:34-54 | user, realm and uri all arrive if and only if none holds a comma or an equals sign |
| Authentication.RightPasswordExactly | src/auth_context_impl.cpp:176-204 | of a user, a realm and a uri without commas: the right password is taken if and only if user and uri arrive, that is hold no equals sign, whatever becomes of the realm; if one of them does not, no password is |
| Authentication.AnyChallenge | src/auth_context_impl.cpp:232-293 | to whatever digest challenge, with qop or without, naming MD5 or no algorithm, the answer with the right password is VALID while the nonce is good, if no value holds a comma or an equals sign |
| Nonces.NoncesOnce | src/nonce_pool.h:46-81 | in every run of issues, presentations and expiries: entries distinct, in the pool exactly when issued and neither removed nor expired since, accepted at most as often as issued |
| Nonces.AcceptedExactly | src/ws_server_impl.cpp:150-153 | in every run a nonce that is presented is accepted if and only if it was issued and neither presented nor expired since |
| Nonces.NoncePool.Add | src/nonce_pool.h:46-58 | refuses exactly a nonce that is there; keeps a new one even if its timer does not start, which it reports |
| Nonces.NoncePool.Remove | src/nonce_pool.h:59-70 | removes that entry and no other |
| Nonces.NoncePool.IsValid | src/nonce_pool.h:71-81 | true exactly for a nonce of the pool |
| Nonces.NoncePool.OnTimer | src/nonce_pool.h:31-34 | an expiry removes its nonce |
| Nonces.NoncePool.IssueNew | src/ws_server_impl.cpp:229-240 | the do-while loop ends with a nonce that was not in the pool |
| Admission.WSServerImpl.OnAccept | src/ws_server_impl.cpp:134-162 | offered to the handler, with the nonce checked and used up, exactly when the first authorization header, in whatever case its name is written, is of the right scheme; otherwise challenged |
| Admission.WSServerImpl.CreateAuthenticationHeader | src/ws_server_impl.cpp:203-264 | a challenge with a new nonce, issued in the pool |
| Admission.AnswerIsGoodOnce | src/ws_server_impl.cpp:150-153 | an answer is VALID while its nonce stands; presented again after any run without a new issue of that nonce it is AMBIGUOUS |
| Admission.EqualsSignNeverAuthorised | src/auth_context_impl.cpp:38-41 | a user or a uri with an equals sign is not read back, and the answer is INVALID for every password |
| Admission.QueryNeverAuthorised | src/ws_socket_impl.cpp:39-61 | so a client that connects with a key=value query is never authorised by digest |
| Admission.BasicArrives | src/auth_context_impl.cpp:140-156 | basic credentials arrive if and only if neither holds a colon and the password is not empty |
| Admission.BasicVerdict | src/auth_context_impl.cpp:176-178 | from the basic header a client sends to the verdict, for a password that is not empty: without a colon in user and password that password is VALID and every other INVALID; with one, that password is INVALID |
| Admission.UnreadVerdict | src/auth_context_impl.cpp:140-186 | basic credentials that are no pair are VALID for the empty password only, a header of another scheme for none |
| Admission.BasicChallengeRead | src/ws_server_impl.cpp:211-217 | a client reads scheme and realm of a basic challenge |
| Admission.UrlParts | src/ws_socket_impl.cpp:39-51 | the target of a request starts with a slash, and its path and its query can be told apart in it |
| Login.WSSocketImpl.Connect | src/ws_socket_impl.cpp:39-92 | which Authorization header goes out, with every other header untouched |
| Login.WSSocketImpl.OnConnect | src/ws_socket_impl.cpp:104-121 | the reply's headers collected; of the first header named www-authenticate, in whatever case, the challenge kept with the count advanced, and without one none |
| Login.ReplyFollows | src/ws_socket_impl.cpp:104-121 | a handshake reply changes the authentication context of the engine as it changes the client's |
| Login.DialFollows | src/ws_socket_impl.cpp:39-68 | so does a Connect that succeeds |
| Login.ReconnectValidExactly | src/ws_socket_impl.cpp:57-68 | a client that connects again after a reply with whatever headers is VALID exactly when the nonce it answers stands, that of the first challenge among them or, without one, that of its old header, and AMBIGUOUS otherwise |
| Login.DigestLogin | src/ws_socket_impl.cpp:57-68 | a whole login over replies that hold the challenge among other headers: refused with a challenge on which the guard of the automatic reconnect holds, VALID on that reconnect, after which no reply makes the guard hold, and AMBIGUOUS on the next connect, which repeats the used header |
| Login.BasicLogin | src/ws_socket_impl.cpp:57-68 | a basic login, whatever was learned before: offered to the handler at once, and only the password of the account VALID |
| Login.PlainRefused | src/ws_server_impl.cpp:139-146 | a client without authentication sends no header, is challenged where one is asked for, and let through where none is |
| Login.AuthorizationFound | src/ws_server_impl.cpp:139-140 | the server finds the header the client sends among whatever others |
| Values.ReadPrint | include/linear/any.h:282-397 | a reader undoes the printer on every value without floating point, in every context, but for the contents of BIN and EXT |
| Values.PrintTellsApart | include/linear/any.h:282-397 | two such values print alike exactly when they differ in those contents only |
| Values.OrderOfValues | include/linear/any.h:82-93 | the order is strict and transitive, incomparable values are exactly those that print alike, and without floating point exactly those equal but for the contents of BIN and EXT |
| Values.PrecedesExactly | include/linear/any.h:82-84 | the order of the texts: a proper prefix comes first, and otherwise the first difference decides |
| Values.OrderAgreesWithEquality | include/linear/any.h:82-99 | without BIN, EXT and floating point, incomparable means equal |
| Values.BinariesIncomparable | include/linear/any.h:356-362 | with BIN it does not |
| Values.DoubleIncomparable | include/linear/any.h:302-309 | nor with a double that prints as an integer |
| Values.Write | include/linear/any.h:282-397 | the loops of operator<< append just the printed text |
| Values.EscapedExactly | include/linear/any.h:312-350 | which characters of a string are printed as they are, and that none printed is a control character |
| Copies.Copy | include/linear/any.h:178-269 | the deep copy stands for the same value, all it points to is newly allocated, and the source is untouched |
| Copies.StandsForOne | include/linear/any.h:178-269 | an object stands for one value only, so the copy is structurally equal |
| Retention.LeaveAllFrame | src/group.cpp:53-71 | leaving all groups takes that socket out of every group and changes no other membership |
| Retention.GroupPool.Get | src/group.cpp:32-40 | the members, none for an unknown group |
| Retention.GroupPool.Join | src/group.cpp:41-46 | adds that membership and no other |
| Retention.GroupPool.Leave | src/group.cpp:47-52 | takes that membership and no other |
| Retention.GroupPool.LeaveAll | src/group.cpp:53-71 | the nested loops take that socket out of every group, and no other |
| Retention.SocketPool.Add | src/socket_pool.h:20-46 | no room is reported exactly when a limit is reached, before an existing entry is noticed; an entry is added once |
| Agreement.LimitHolds | src/socket_pool.h:17-46 | in every run the size stays within a non-zero limit if and only if the limit is never lowered below the size |
| Retention.SocketPool.Remove | src/socket_pool.h:47-62 | removes that entry |
| Retention.SocketPool.Clear | src/socket_pool.h:63-70 | every retained socket leaves all groups, and the pool is empty |
| Retention.TCPServerImpl.Start | src/tcp_server_impl.cpp:23-73 | refused while serving, and serving only where the transport listens |
| Retention.TCPServerImpl.OnAccept | src/tcp_server_impl.cpp:89-127 | disconnected exactly when a limit is reached; otherwise retained and in the broadcast group, with every other membership and entry as it was |
| Retention.TCPServerImpl.Stop | src/tcp_server_impl.cpp:75-87 | undisturbed: once, every retained socket leaves all groups, and the pool is empty |
| Retention.TCPServerImpl.Release | src/server_impl.h:25-28 | all groups, then the pool |
| Memberships.BroadcastExactly | src/tcp_server_impl.cpp:115-119 | in every interleaving a retained socket is in the broadcast group if and only if the application has not taken it out since it was accepted or last joined |
| Memberships.MembershipExactly | src/group.cpp:41-71 | in every interleaving a socket is in a group if and only if, read off the actions, it was let join it, or accepted with room for it in the case of the broadcast group, and has since neither left it or all groups nor been released or cleared |
| Memberships.PoolExactly | src/socket_pool.h:20-70 | in every interleaving a socket is in the pool if and only if it was accepted with room, and neither released nor cleared since |
| Memberships.ServesExactly | src/tcp_server_impl.cpp:23-92 | in every interleaving a server accepts from its Start to its Stop |
| Agreement.StraysExactly | src/server_impl.h:25-28 | in every interleaving of accepts, releases, stops and joins, pool ids are distinct, and the memberships of a server's sockets that are not retained are exactly those made while the socket was not retained and not left since |
| Agreement.PoolsAgree | src/tcp_server_impl.cpp:89-127 | between releases and stops, every socket of the server in any group, the broadcast group among them, is in its pool if and only if there are no such memberships |
| Agreement.JoinDuringRelease | src/server_impl.h:25-28 | a socket the application lets join between the two halves of its release stays in the group without being retained |
| Agreement.JoinDuringStop | src/socket_pool.h:63-70 | so does one that joins while Stop clears, after its own turn |
| Agreement.StopIsSteps | src/tcp_server_impl.cpp:75-87 | the undisturbed Stop is its steps one after the other |
| Agreement.StopEmptiesGroups | src/tcp_server_impl.cpp:75-87 | once Stop is through, a group holds a socket of the server if and only if the application let it join when it was not retained and has not undone that |
| Retention.SendToGroup | src/message.cpp:74-93 | exactly one attempt for each member of the snapshot but the excepted socket |

## Left out

- The transport, the TLS library and the msgpack packer are not part of this model: messages come decoded, and the transport appears as the guards described above.
- SSL and WSS sockets and servers: they repeat the same transitions with another handle.
- Logging, address resolution, keepalive, socket options, buffer size limits, and the public handles that only check for null and forward.
- Allocation failures and the destruction of a socket or a delegate with messages queued: the code keeps no conservation law there.
- A handler callback is one step together with the code before it, except where code continues after the handler.
- What a freed timer does when it fires: it is undefined in the source, and the model says only when it happens.
- An unknown peer address is folded into `connectable`; the code refuses both alike.
- A failed Connect of the transport may leave the authentication context of a WebSocket client half updated; nothing reads it before the next Connect overwrites it, so the engine model leaves it as it was.
- The engine sees of a handshake reply only its code and the type of its challenge; `Login.dfy` models the reply's headers.
- Accepted sockets that were refused for want of room: `SocketObject.SocketImpl.Accept` starts with the socket in the pool.
- SocketObject.SocketImpl.SendPendingMessages: states the undisturbed flush; interleavings are those of the run theorems.
- SocketObject.SocketImpl.OnDisconnect: states the undisturbed close; interleavings are those of the run theorems.
- SocketObject.SocketImpl.OnRequestTimeout: its argument is a Request, as the type of the source's parameter says.
- Delivery.RequestConservation: like the other theorems on fresh runs, supposes, as the library does, that no request is sent under the id of one in play; ids come from a counter of 32 bits, so they repeat after 2^32 requests or when one Request object is sent twice.
- Retention.TCPServerImpl.Stop: states the undisturbed Stop; interleavings are those of `Agreement.dfy`.
- Retention.TCPServerImpl.Release: states the undisturbed release; interleavings are those of `Agreement.dfy`.
- Authentication.RightPasswordExactly: leaves out values with a comma, after which the rest of the value is read as pairs of its own; `Authentication.ArrivesExactly` covers them.
- Values.Write: the text of a double is what the stream prints for it, which comes with the value and is not computed.
- Values.ReadPrint: leaves floating point out, whose printed form is not injective.
- Assigning an `any` to itself, which clears the zone it copies from, and truncated `stringify`.
- The initial value of `valid_nonce` for basic authentication is indeterminate in the source; it is a parameter, and nothing depends on it.
- Retention.GroupPool.LeaveAll: the order in which groups and members are visited is left open.
