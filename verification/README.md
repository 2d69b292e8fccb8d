# A verified model of the tunnel

MyLittleProxy lets a client behind a firewall serve a domain through a public server. The client sends a
control request naming the host it wants; the server checks it, claims the host, takes over the
connection and runs many streams over it. A public request for that host makes the server ask the client,
over the control stream, to open one more stream, and the request travels on it.

This project models the parts of that in which something can go wrong that one function alone does not show,
and proves what they keep on every run. `dafny verify dfyconfig.toml` checks all of it.

| file | part |
|---|---|
| `Base.dfy` | shared types, and the orders a range loop may take through a map |
| `VirtualHosts.dfy` | the host table as a class, its two inverse lookups, iteration order |
| `Admission.dfy` | the tests of a control request |
| `Registry.dfy`, `RegistrySafety.dfy`, `OneShot.dfy` | the server's tables, one handler run per step: the chain host - session - control - listener, what a connect leaves behind, one-shot callbacks |
| `Isolation.dfy`, `SectionIsolation.dfy` | clients with disjoint claims do not influence each other, handler by handler and section by section |
| `Server.dfy` | the server's objects, proved to do what `Registry` says |
| `LockLevel.dfy`, `LockSafety.dfy` | the same handlers one critical section at a time: no takeover, provenance, closed objects |
| `Teardown.dfy` | what can come between the two sections in which a teardown finds and deletes a host |
| `ClientChain.dfy` | the chain between sections, as long as no two control requests or teardowns of one client overlap |
| `MissingSession.dfy` | exactly when a dial finds a control and no session |
| `LockRefinement.dfy`, `Serial.dfy`, `SerialRuns.dfy` | how the two granularities fit: handler runs are the uninterrupted runs of sections, in both directions, and a run with an interruption that breaks the chain |
| `Routing.dfy` | which client gets a request, with which path, and why it may |
| `DialMatching.dfy` | concurrent dials on one session, streams without names |
| `ClientLoop.dfy`, `ClientRuns.dfy`, `ClientEnds.dfy`, `ClientStory.dfy` | the client's `Start` loop as a class, all its runs, how they end, and what they announce |
| `ClientRequests.dfy` | the client's count of requests in progress, and the two that wait for it |
| `Handover.dfy`, `Join.dfy` | websocket bytes: the buffered hand-over, then two copying loops |
| `ClientConfig.dfy` | a generated client config against the server's own checks |
| `CustomHeaders.dfy`, `CompetingHeaders.dfy`, `TokenLists.dfy` | configured headers, comma-separated lists |

Code that changes fields in place is a class here, and each method is proved equal to a function of its old
state; what the source promises is then proved about that function over whole runs. Protocols between
threads are state machines whose steps are the points where another thread may come in.

Two granularities are used for the server. A *handler step* is one whole control request, one end of a
control loop, or one dial. A *section* is what runs under one lock. A run of handler steps is the same thing as a
run of sections in which no handler is interrupted: `Serial.HandlerRunIsLockRun` and
`SerialRuns.LockRunIsHandlerRun`. The chain that relates the tables holds more widely, whenever the control requests and
teardowns of one client do not overlap; dials may overlap anything (`ClientChain.ChainBetweenOwnHandlers`). When
they do overlap it can break (`LockRefinement.ChainBreaksBetweenSections`), and
`MissingSession.ControlWithoutSessionIff` says after which sections it is broken.

What the libraries do is taken as any function (HMAC, regular expressions, `path.Clean`, `net.SplitHostPort`,
JSON) or as a choice of the environment (whether a connection, a write or a handshake succeeds).

## Where the code differs from what is said about it

- A comment in `checkConnect` (tunnel/server.go:762-763) says the handler has closed the raw connection after
  any failure that follows the hijack. It has only if the session had been stored: the closing function is
  registered at line 481, after `addSession`. `RegistrySafety.EarlyFailureKeepsHost` says when exactly.
- `Close` (tunnel/client.go:346) is documented to shut the client down completely. A call that falls between the
  check after the backoff and `setClosed(false)` is overwritten, unless a fetch fails in that turn: then the next turn
  sees it. `ClientEnds.CloseEndsStartIff` says when exactly a call ends the loop; in the run of
  `ClientEnds.CloseOverwritten` the loop goes on for any number of turns.
- Giving up sets the closed flag (tunnel/client.go:296), and a new `Start` clears it only once its fetches have
  succeeded. So a restarted client whose first fetch fails ends with the error of that fetch although nobody ever
  called `Close`: `ClientEnds.EndsByItselfIff`, with a run in `ClientEnds.RestartEndsWithAFetchError`.
- A control message for which the client cannot open a stream (tunnel/client.go:573-576) leaves the server's acceptor
  waiting for as long as the session stays up: `DialMatching.NobodyLeftWaitingIff`, `DialMatching.AcceptorLeftBehind`.
- The wait group may be added to from zero while the goroutine of a `Close` is still in `Wait`, which the
  documentation of the wait group forbids: `ClientRequests.AddFromZeroMeetsWaitIff`, with a run in
  `ClientRequests.AddMeetsTheWaitOfClose`.
- `deleteSession` finds the host and deletes it in two sections, so it may delete another client's entry:
  `Teardown.DeletesAnothersIff`, with a run in `Teardown.TeardownHitsAnotherClient`.
- The dropping branch of `startNotifyIfNeeded` (tunnel/client.go:411-416) cannot be reached while one `Start` runs:
  `ClientRuns.NoticesNeverDropped`.
- `headerContains` treats several field lines like one joined line, as section 5.3 of RFC 9110 asks, except for an
  empty token and no line: `TokenLists.LinesCombineIff`.
- A list read from the environment and joined again reads back the same, except when its first entry starts with
  "[": `TokenLists.ReadingIsStableIff`, with a value in `TokenLists.RereadingCanDiffer`.
- Configured headers give the same request in every map order exactly when no two names with one canonical form
  ask for different values; validation does not rule that out: `CustomHeaders.OrderIrrelevantIff`, with a map in
  `CompetingHeaders.OrderCanMatter`.
- The missing-session error of `dial` (tunnel/server.go:384-387) cannot occur between handler steps
  (`RegistrySafety.DialNeverLacksASession`). Between sections it can: `MissingSession.MissesIff` says when exactly, and
  `ClientChain.DialFindsASession` that dials alone do not bring it about.
  A connection lost while a dial stands between its two lookups is enough: `MissingSession.DialMeetsTeardown`.
- A session that `addSession` replaces (tunnel/server.go:669-673) is never closed by the server:
  `LockSafety.ClosedUnlessReplaced`.

## Model

| member | source | states |
|---|---|---|
| `VirtualHosts.Storage.AddHost` | tunnel/virtualhost.go:57-74 | Refuses exactly a host that belongs to another identifier and then changes nothing; otherwise the identifier ends with this host only, whatever order the loop that deletes while iterating takes. Keeps one host per identifier. |
| `VirtualHosts.Storage.DeleteHost` | tunnel/virtualhost.go:76-80 | Removes that host and no other. |
| `VirtualHosts.Storage.GetIdentifier` | tunnel/virtualhost.go:83-93 | The owner of the host, if it has one. |
| `VirtualHosts.Storage.GetHost` | tunnel/virtualhost.go:96-107 | The host of the identifier, found by an unordered scan, if it owns one. |
| `VirtualHosts.Storage.GetVirtualHost` | tunnel/virtualhost.go:109-120 | That host together with what is stored under it. |
| `VirtualHosts.RunsKeepOneHostEach` | tunnel/virtualhost.go:52-80 | No sequence of claims and deletions gives an identifier two hosts. |
| `VirtualHosts.Bijection` | tunnel/virtualhost.go:57-107 | After any sequence of `AddHost` and `DeleteHost`, `GetHost(id)` is h if and only if `GetIdentifier(h)` is id. |
| `VirtualHosts.ScanOrderIrrelevantIffOneHost` | tunnel/virtualhost.go:100-104 | A scan gives the same answer in every map order exactly when the identifier owns at most one host. |
| `VirtualHosts.SweepOrderIrrelevant` | tunnel/virtualhost.go:65-71 | The loop that deletes while it iterates leaves the same table in every map order. |
| `Admission.ConvertRules` | tunnel/server.go:773-783 | Every rule in its order, or nothing as soon as one pattern does not compile. |
| `Admission.CheckHost` | tunnel/server.go:801-809 | True exactly if some allowed pattern matches the host. |
| `Admission.CheckIdentifier` | tunnel/server.go:786-798 | True exactly if the list is empty or holds the identifier. |
| `Server.Callbacks.Pop` | tunnel/util.go:81-97 | Takes the callback out, also a nil one, and hands over one that can be called. |
| `Server.Server.ChangeState` | tunnel/server.go:598-621 | Returns and announces the state before, and stores the new one. |
| `Server.Server.DidConnect` | tunnel/server.go:572-578 | Runs the one-shot callback and announces the connection. |
| `Server.Server.DidDisconnect` | tunnel/server.go:590-596 | Runs the one-shot callback and announces the end with its reason. |
| `Server.Server.DeleteSession` | tunnel/server.go:675-696 | Without a session nothing changes; otherwise session and host go. |
| `Server.Server.RunDeferred` | tunnel/server.go:480-489 | What runs when `controlHandler` returns: with an error, and only if it was registered, the session is deleted and the connection closed. |
| `Server.Server.Handshake` | tunnel/server.go:456-526 | From the hijack on, for each point at which it can fail: the tables, and whether the connection is left open or closed. |
| `Server.Server.ControlHandler` | tunnel/server.go:427-527 | Does what the handler step says to every table and to the connection, for each way the connection may go. No closed control stays registered. |
| `Server.Server.CheckConnect` | tunnel/server.go:707-769 | Answers, changes the tables and leaves the connection as the handler step says, for every request. |
| `Server.Server.ListenerStart` | tunnel/server.go:530-531 | The start of a control loop, as the handler step says. |
| `Server.Server.ListenerEnd` | tunnel/server.go:535-552 | The teardown of a control loop, as the handler step says, by the identifier of its control. |
| `Server.Server.Dial` | tunnel/server.go:378-406 | Up to the wait: no control, no session, a failed send or the session to accept from, each exactly when the tables and the write say so; a failed send closes and removes the control. |
| `RegistrySafety.ConnectEffect` | tunnel/server.go:707-769 | A control request either changes nothing and gets an HTTP error, or leaves one of three outcomes: all of the client's entries set up, all taken down, or only the claim. |
| `RegistrySafety.DeleteSessionEffect` | tunnel/server.go:675-696 | As a handler step, deleting a session takes the client's own host with it and nobody else's; for what can come between its two sections see `Teardown.DeletesAnothersIff`. |
| `RegistrySafety.NextKeepsChain` | tunnel/server.go:435-447 | Every handler step keeps the chain: controls among sessions among host owners, each control with its own listener running. |
| `RegistrySafety.RunsKeepChain` | tunnel/server.go:476-523 | So the chain holds in every reachable state. |
| `RegistrySafety.DialNeverLacksASession` | tunnel/server.go:378-387 | `dial` never takes its missing-session branch, and the control it finds has its listener. |
| `RegistrySafety.DialAsksLastSession` | tunnel/server.go:378-406 | On every run of handlers a dial is refused exactly if the client has no control, and a message that is sent has it wait on the session of the client's most recent connect that succeeded. |
| `RegistrySafety.NothingOutlivesTheListeners` | tunnel/server.go:530-553 | Once no listener of a client runs, it has neither session nor control. |
| `RegistrySafety.AllOrNothing` | tunnel/server.go:476-526 | A connect that stores a session ends with host, session, control and one new listener, or with none of them. |
| `RegistrySafety.HttpErrorIffNotHijacked` | tunnel/server.go:709-766 | An HTTP error is written exactly for the failures before the hijack. |
| `RegistrySafety.AnswersIff` | tunnel/server.go:707-769 | The answer to every request, from the request, the settings and the tables: 405, 403, 400 or 409 for the test that fails first, 502 before the hijack, and otherwise a tunnel or nothing. |
| `RegistrySafety.EarlyFailureKeepsHost` | tunnel/server.go:461-489 | A hijacked connection that fails is closed exactly if it fails after `addSession`, where the cleanup is registered: not if writing the response, clearing the deadline or starting the session fails. An attempt that fails earlier keeps the host it claimed and leaves sessions and controls as they were. |
| `RegistrySafety.StaleControlIsCleared` | tunnel/server.go:440-447 | An attempt refused for a stale control clears host, session and control of the client. |
| `RegistrySafety.RunsLeaveWayClear` | tunnel/server.go:440-447 | No sequence of other events, refused requests in anybody's name included, puts a conflict or a control back in the way, short of an admitted rival claim. |
| `RegistrySafety.SecondAttemptGetsPast` | tunnel/server.go:435-458 | Bounded reconnect: the attempt after such a refusal passes both checks, and connects if its connection holds, whatever happens in between short of an admitted rival claim. |
| `OneShot.EveryRegistrationAccountedFor` | tunnel/util.go:75-110 | On every run each registration of a callback has been called, is waiting, or was replaced: the three counts add up. |
| `OneShot.CallbacksRunOnce` | tunnel/server.go:562-596 | A callback runs at most as often as it was registered, and is gone once its event has been announced. |
| `Isolation.OthersLeaveMyViewAlone` | tunnel/server.go:427-560 | No event of another client changes a client's host, session, control, state, callbacks, listeners or announced changes. |
| `Isolation.OwnEventSameEffect` | tunnel/server.go:427-560 | A client's own event depends only on the client's own part of the state, as long as nobody else holds the host it asks for. |
| `Isolation.HostsWereClaimed` | tunnel/virtualhost.go:57-74 | A host in the table was claimed by its owner at some point of the run. |
| `Isolation.NonInterference` | tunnel/server.go:427-560 | For clients whose admitted claims are disjoint, in every interleaving and with any refused requests, everything that belongs to one of them is what a run of its own events alone gives. |
| `Isolation.AnnouncedChangesConnected` | tunnel/server.go:598-621 | The changes announced for a client form one path from Unknown to its recorded state. |
| `Isolation.AnnouncedChangesAre` | tunnel/server.go:530-621 | Exactly these changes are announced for a client, in this order: Connected for each listener that starts, Closed with the reason for each that ends and each attempt that fails after its claim. |
| `SectionIsolation.NonInterference` | tunnel/server.go:378-560 | For clients whose admitted claims are disjoint, in every interleaving of sections: one client's sections alone are a run too, and leave its host and rules, session, control and threads, each at its section, as the shared run does, up to the names of controls. |
| `LockSafety.RunsKeepOneHostEach` | tunnel/virtualhost.go:57-80 | In every interleaving of sections, embedders included, no identifier owns two hosts. |
| `LockSafety.NoTakeover` | tunnel/virtualhost.go:61-71 | A host that changes its owner over a run is unowned at some point strictly in between. |
| `LockSafety.Provenance` | tunnel/server.go:707-753 | Without claims by an embedder, every entry is the domain and the converted rules of its client's most recent accepted request, and every accepted request passed all tests. |
| `LockSafety.RunsKeepInv` | tunnel/server.go:657-696 | Sessions in the table are open and distinct, controls in it belong to the identifier they are under, closed ones are about to be deleted, and the session lock has one holder. |
| `LockSafety.ClosedForGood` | tunnel/control.go:53-63 | Closed sessions and controls stay closed. |
| `LockSafety.ClosedUnlessReplaced` | tunnel/server.go:669-696 | A session that is no longer its client's was taken out by a `deleteSession`, which closed it, or by an `addSession`, and then it is never closed afterwards. |
| `LockSafety.ClosedSessionsAreGone` | tunnel/server.go:675-691 | A session closed by `deleteSession` is never found in the table again. |
| `LockSafety.ClosedControlsArePending` | tunnel/server.go:398-405 | A closed control is in the table only while some thread has its `deleteControl` for that identifier still to run, and sending on it fails. |
| `LockSafety.SendsIff` | tunnel/control.go:35-63 | A dial can send on the control it found exactly if no thread has closed that control before, at any point of the run. |
| `LockSafety.OneInsideDeleteSession` | tunnel/server.go:675-696 | A thread is inside `deleteSession` exactly if it holds the session lock, so there is at most one. |
| `LockSafety.SessionTableHeld` | tunnel/server.go:655-696 | While a thread is inside `deleteSession` nobody else stores, deletes or looks up a session, whatever else runs. |
| `Teardown.DeletesAnothersIff` | tunnel/server.go:692-694 | The section that deletes the host hits another client's entry exactly if, since the host was found, its client gave it up by a claim on another domain or through an embedder, and then another client claimed it and kept it. |
| `Teardown.TeardownSparesOthers` | tunnel/server.go:692-694 | Unless a connector of the same client or an embedder claims or deletes in between, the host is still the client's own when it is deleted. |
| `Teardown.TeardownHitsAnotherClient` | tunnel/server.go:692-694 | A run in which it is another client's, for any three admitted requests of that kind. |
| `ClientChain.ChainBetweenOwnHandlers` | tunnel/server.go:427-560 | Between any two sections, as long as no two control requests or teardowns of one client overlap, dials at will: a client has a session if it has a control and a host if it has a session, and while none of those is under way its control has its own listener running. |
| `ClientChain.DialFindsASession` | tunnel/server.go:378-387 | If besides no dial overlaps a control request or teardown of its client, any number of concurrent dials never take their missing-session branch. |
| `MissingSession.MissesIff` | tunnel/server.go:378-387 | In every interleaving, embedders included: a dial that has found a control takes its missing-session branch exactly if, of its client's sections that store or delete a session, a `deleteSession` came last. |
| `MissingSession.ControlWithoutSessionIff` | tunnel/server.go:427-560 | A control is in the table without a session exactly if `addControl` was the last section to change the one entry and `deleteSession` the last to change the other. |
| `MissingSession.MissesBetweenLookupsIff` | tunnel/server.go:378-387 | Seen from a dial's first lookup: it misses exactly if a `deleteSession` came last between its lookups, or nothing changed the session there and the control was found without one. |
| `MissingSession.DialMissesIff` | tunnel/server.go:378-387 | If no two control requests or teardowns of one client have overlapped before the first lookup, the first of these is the only way. |
| `MissingSession.DialMeetsTeardown` | tunnel/server.go:378-387 | A run without any such overlap in which a dial misses, for any admitted request. |
| `LockRefinement.ListenerAlone` | tunnel/server.go:535-547 | There is an undisturbed run of a control loop's teardown that does what the handler step does. |
| `LockRefinement.DialAlone` | tunnel/server.go:378-406 | There is an undisturbed run of a dial that does what the handler step does, for a message that is sent and one that is not. |
| `LockRefinement.ConnectAlone` | tunnel/server.go:707-769 | There is an undisturbed run of an admitted control request that does what the handler step does, for each way its connection may go. |
| `LockRefinement.ChainBreaksBetweenSections` | tunnel/server.go:476-545 | A run in which a client reconnects while its old listener tears down: its control ends up registered without session and host, and a dial takes the missing-session branch. |
| `Serial.StepFollows` | tunnel/server.go:378-560 | Whatever a handler step does, one thread running alone from a quiet state can do, and it leaves a quiet state. |
| `Serial.HandlerRunIsLockRun` | tunnel/server.go:378-560 | Every run of handler steps is a run of sections with the same tables and listeners. |
| `SerialRuns.SoloRunIsHandlerStep` | tunnel/server.go:378-560 | Conversely, every way a connector, a dial or a teardown can run alone to its end is one handler step, that of its own request, identifier or control. |
| `SerialRuns.LockRunIsHandlerRun` | tunnel/server.go:378-560 | Every run of sections in which no handler is interrupted ends, when none is under way, with the tables and listeners of some run of handler steps, whose events are the requests, starts, ends and dials that it completed, in order. |
| `SerialRuns.ChainBetweenHandlers` | tunnel/server.go:378-560 | So the chain of the handler level holds of the tables of every such run. |
| `Routing.RewriteRequest` | tunnel/server.go:305-328 | Clears the host; the first rule of the client's entry that matches the path rewrites it, and without one the request is refused with its path as it was. |
| `Routing.Route` | tunnel/server.go:223-253 | A request whose host with port is in the table goes to its owner; failing that, one whose bare host is; if neither is, it is refused. The rules that rewrite it are the ones stored under that entry. |
| `Routing.RoutedToAdmittedClients` | tunnel/server.go:240-253 | In every state of a run without embedder claims, the entry that would route a request belongs to a client whose most recent accepted control request asked for exactly that host, carried a valid signature and passed both allow-lists. |
| `Routing.RoutedInPieces` | tunnel/server.go:240-306 | The same with the three lookups in different sections and anything in between: the client was found by a host it had earned at that moment, and the rules are those it has earned by the time they are looked up. |
| `Routing.RewrittenByOwnRules` | tunnel/server.go:305-328 | End to end: a request served by an entry is rewritten by the first rule in the body of its client's most recent accepted control request that matches the path, and refused exactly if none does. |
| `DialMatching.RunsKeepInv` | tunnel/server.go:398-422 | The invariant of the matching protocol in every interleaving: each stream in one place, requests only on the stream of their dial, acceptors as many as streams. |
| `DialMatching.NoStreamServesTwo` | tunnel/server.go:409-418 | No stream is given to two dials, even at different times, and it carries the request of its dial only. |
| `DialMatching.NoCrosstalk` | tunnel/server.go:261-278 | Whatever a request reads is the local server's answer to that request, or the answer that there is none. |
| `DialMatching.AnswerIff` | tunnel/httpproxy.go:34-73 | A request that has read its answer has read "no local server" exactly if the goroutine of its own stream failed in the run, and the local server's answer exactly if that goroutine replied with it. |
| `DialMatching.UndisturbedDialIsAnswered` | tunnel/server.go:398-422 | After any run that leaves nothing outstanding, a new dial on its own is given the next stream, its request reaches the local server, and it reads the answer. |
| `DialMatching.TimedOutForGood` | tunnel/server.go:415-421 | A dial that has timed out never returns a stream and never writes a request, whatever comes afterwards. |
| `DialMatching.NotSentForGood` | tunnel/server.go:395-406 | A dial whose message could not be sent never waits for a stream or gets one. |
| `DialMatching.StreamsInOrder` | tunnel/server.go:409-418 | Acceptors get the streams in the order in which the client opened them. |
| `DialMatching.EndReleasesAcceptors` | tunnel/server.go:409-418 | Once the session has ended every acceptor is let go, in a number of steps fixed in advance. |
| `DialMatching.AcceptorsMatchStreams` | tunnel/util.go:26-34 | While the session is up, acceptors waiting and about to wait equal messages in transit plus streams not accepted, plus one if the client's loop ended because it could not open a stream for a message. |
| `DialMatching.NobodyLeftWaitingIff` | tunnel/client.go:565-576 | Once every message is processed and every stream accepted, no acceptor waits, timeouts or not, exactly if no message was lost that way; otherwise exactly one does. |
| `DialMatching.OneLostReached` | tunnel/client.go:573-576 | A run after which everything is processed and an acceptor waits. |
| `DialMatching.AcceptorLeftBehind` | tunnel/client.go:573-576 | However a run goes on after a message was lost that way, some acceptor waits or is about to as long as the session is up. |
| `DialMatching.SomethingCanSettle` | tunnel/client.go:565-595 | Acceptors and streams never wait for each other in vain: nothing is outstanding exactly when no settling step is possible. |
| `DialMatching.SettlingEnds` | tunnel/client.go:565-595 | Settling takes a number of steps fixed in advance and leaves nobody waiting but the acceptor of a lost message. |
| `ClientLoop.Client.Start` | tunnel/client.go:262-344 | The loop does what the turn function says, turn by turn, until it returns. |
| `ClientLoop.Client.ConnectOnce` | tunnel/client.go:542-548 | A completed handshake resets the backoff, notifies, and listens; every outcome is an error. |
| `ClientLoop.Client.SetClosedTo` | tunnel/client.go:389-401 | Clearing the flag also empties the notification channel. |
| `ClientLoop.Client.NotifyStart` | tunnel/client.go:405-420 | Sends unless closed, and never waits. |
| `ClientRuns.StatePath` | tunnel/client.go:428-449 | On every run, over any number of Starts, the changes form one path in the state graph, and the loop has returned exactly when the state is closed. |
| `ClientRuns.EveryRetryHasAReason` | tunnel/client.go:290-336 | There is one change to Connecting per turn; each but the first carries the error of the attempt before it and goes with exactly one call of `NextBackOff`. |
| `ClientRuns.AttemptsPaid` | tunnel/client.go:286-343 | Attempts never exceed 1 + N*H + calls since the last reset, H the handshakes so far. |
| `ClientRuns.AttemptBound` | tunnel/client.go:293-299 | With a backoff that gives up on call N+1 and at most S handshakes, at most 1 + N*(S+1) attempts, after which the loop returns. |
| `ClientEnds.BoundIsReached` | tunnel/client.go:293-299 | The bound is reached: without a handshake or a `Close` there are exactly N+1 attempts, and the turn after them gives up. |
| `ClientRuns.TurnsAreAttempts` | tunnel/client.go:290-343 | A loop still running has made one attempt per turn. |
| `ClientStory.AnnouncedChangesAre` | tunnel/client.go:286-343 | On every run exactly these changes are announced: Started, for each attempt Connecting with the error before it, Connected if its handshake completes and Disconnected with the error if decoding then fails, and at the end Closed with its error. |
| `ClientStory.ConnectionsAndLosses` | tunnel/client.go:556-571 | As many changes to Connected as handshakes completed; the changes to Disconnected carry, in order, exactly the decode errors of the attempts that ended in one. |
| `ClientEnds.FateIsKnown` | tunnel/client.go:286-343 | How each run of the loop ends, and in which turn, for any Close calls in any of its turns, in terms of those calls, failing fetches, handshakes and the backoff. |
| `ClientEnds.EndsByItselfIff` | tunnel/client.go:293-308 | If nobody calls `Close`, the loop ends without giving up exactly if it found the flag set, its first fetch fails and the backoff of the second turn does not give up; it then ends with that fetch's error. Giving up ends with ErrRedialAborted and leaves the flag set. |
| `ClientEnds.RestartEndsWithAFetchError` | tunnel/client.go:293-308 | Two Starts without any `Close`: the first gives up, the second ends with a fetch error. |
| `ClientEnds.CloseEndsStartIff` | tunnel/client.go:293-342 | For one `Close` in any turn of any Start and at any point of it: that Start ends by finding the flag set exactly if the backoff gives up neither before the turn nor in it and a check comes before `setClosed(false)`, in that turn or after a failing fetch in the next, or if the flag was still set from before and is seen. |
| `ClientEnds.CloseOverwritten` | tunnel/client.go:331 | A `Close` after which the loop goes on for any number of turns. |
| `ClientRuns.NoticesNeverDropped` | tunnel/client.go:389-420 | The channel holds at most one notification and none is ever dropped. |
| `ClientRequests.CountedExactly` | tunnel/client.go:584-594 | In every interleaving of the loop, the goroutines and any number of Close calls, over any number of connections, the wait group counts exactly the HTTP calls between their Add and their Done. |
| `ClientRequests.AddsLessDones` | tunnel/client.go:584-594 | It is the number of Adds less the number of Dones, and never negative. |
| `ClientRequests.DrainedWhenClosed` | tunnel/client.go:567-570 | When the loop closes its session, every HTTP call of this and earlier connections has been marked done. |
| `ClientRequests.DrainEnds` | tunnel/client.go:567-570 | From the last message until the session is closed, whatever else happens: nothing is added, each step of a counted call brings the end nearer and their number is fixed in advance, while the loop is blocked some counted call has its next step, and after the last the loop is let through. |
| `ClientRequests.DrainedLoopCloses` | tunnel/client.go:567-570 | Once nothing is counted the loop closes its session in at most two steps of its own. |
| `ClientRequests.ConnectionsAccountedFor` | tunnel/client.go:556-576 | Over all connections: each either ends in a message that cannot be decoded, and then its session is closed after the wait, or in a stream that cannot be opened, and then it is not. |
| `ClientRequests.AddFromZeroMeetsWaitIff` | tunnel/client.go:355-372 | An Add that finds zero never meets the loop's own Wait; it meets that of a Close exactly if its goroutine began to wait while a call was counted and has not run again since. |
| `ClientRequests.AddMeetsTheWaitOfClose` | tunnel/client.go:355-372 | A run in which it does. |
| `ClientRequests.Client.OnMessage` | tunnel/client.go:579-588 | A message starts one call if a stream opens for it, counted before it starts if it is HTTP. |
| `ClientRequests.Client.OnProxyReturn` | tunnel/client.go:588-594 | A returning call is uncounted if it is HTTP and then gone, and the counter stays at or above zero. |
| `Handover.BufferedReader.ReadMessage` | tunnel/wsproxy.go:50-57 | However the bytes arrive, the message is the shortest complete prefix, and what follows it is still to come, in order. |
| `Handover.BufferedReader.Forward` | tunnel/wsproxy.go:83-89 | Writes out all the reader holds, exactly if the connection takes that much; otherwise as much as it takes. |
| `Handover.HandOver` | tunnel/server.go:351-373 | For every chunking, what the other side has when the join starts is the message and the bytes that followed it, none lost, doubled or reordered. It fails exactly if no message is complete, its head does not fit or what was read ahead does not, and always gets to the join if all of it fits. |
| `Handover.BytesSurvive` | tunnel/wsproxy.go:48-93 | Forwarded and joined bytes together are at every moment a prefix of what followed the upgrade, and all of it when the stream ends. |
| `Join.JoinDelivers` | tunnel/wsproxy.go:164-183 | Each side has received a prefix of what the other sent; a direction that ends with its stream has delivered all of it; a finished direction has closed both connections. |
| `Join.CauseIff` | tunnel/wsproxy.go:168-173 | A direction has ended for a cause exactly if the run has a step of it with that cause. |
| `Join.AllOutReceived` | tunnel/wsproxy.go:168-173 | The other side has received as many bytes as the writes of the run put out, failing ones included. |
| `Join.FewStepsLeft` | tunnel/wsproxy.go:168-177 | With its destination closed, a copying loop takes at most a few more steps. |
| `Join.CanGoIff` | tunnel/wsproxy.go:168-177 | A copying loop has a step that neither its peers nor the network can keep from it exactly unless it is done, blocked reading an open connection with nothing to read, or blocked writing to an open one. |
| `Join.JoinEnds` | tunnel/wsproxy.go:162-183 | Once one direction is done the other is done after at most four more steps of its own, and has such a step until then. |
| `Join.DstCloseIsNeeded` | tunnel/wsproxy.go:174-175 | A reachable state from which, without Close calls, the other direction never makes a step; closing the connection it reads gives it one. |
| `Join.SrcCloseIsNeeded` | tunnel/wsproxy.go:176 | A reachable state in which the first Close is done and the other direction is still blocked in a write; the second Close lets it go on. |
| `ClientConfig.HostCheckAgrees` | server/clientconfig.go:119-135 | With patterns that compile, the check of the generator is the check of the server. |
| `ClientConfig.HostCheckIff` | server/clientconfig.go:119-135 | Without that, it accepts exactly if some pattern matches and every one up to it compiles. |
| `ClientConfig.RefusedIffServerWould` | server/clientconfig.go:55-60 | A config is refused exactly when the server's host check or client check would refuse, and with the reason that applies. |
| `ClientConfig.AddressIff` | server/clientconfig.go:98-114 | The client is sent to the address given, or else to the control listener's, which must name a host. |
| `ClientConfig.BuildIs` | server/clientconfig.go:37-97 | Every field of a generated config, and with which error none is generated. |
| `ClientConfig.GeneratedConfigAgreesIff` | server/clientconfig.go:37-97 | A client with a generated config gets to the claim on its host exactly if it has a name and a key, the control path is cleaned, the name is admitted and the key signs it as the server's does. |
| `ClientConfig.GeneratedConfigAgrees` | server/clientconfig.go:34-97 | So with an identifier given, a cleaned path and the same key, every generated config works and claims its domain. |
| `TokenLists.ApplyEnvList` | server/envconfig.go:75-105 | Unset, JSON after a leading bracket, otherwise the trimmed non-empty parts between commas in order. |
| `TokenLists.SplitJoined` | server/envconfig.go:94 | Splitting inverts joining for entries without commas. |
| `TokenLists.ListRoundTrip` | server/envconfig.go:81-102 | Reading a comma-joined list of plain entries gives the list, if its first entry does not start with "[". |
| `TokenLists.PaddedListRead` | server/envconfig.go:81-102 | A list whose entries have white space around them is read as the entries without it, in order, empty ones dropped. |
| `TokenLists.KeptPartsArePlain` | server/envconfig.go:96-100 | The split branch yields plain entries only. |
| `TokenLists.ReadingIsStableIff` | server/envconfig.go:81-102 | Reading, joining and reading again gives the same list exactly if it is empty or its first entry does not start with "[". |
| `TokenLists.RereadingCanDiffer` | server/envconfig.go:81-102 | A value for which it does not. |
| `TokenLists.HeaderContains` | tunnel/server.go:831-841 | True exactly if some part of some line is the token, case and white space aside. |
| `TokenLists.ContainsIff` | tunnel/server.go:831-841 | The same spelled out: on some line some part between commas is white space, then the token up to case, then white space. |
| `TokenLists.LinesCombineIff` | tunnel/server.go:831-841 | Several lines and the one line that joins them agree, exactly unless there is no line and the token is empty. |
| `CustomHeaders.ValidateCustomHeaders` | tunnel/customheaders.go:29-43 | Accepts exactly if every name is a non-empty token of section 5.6.2 of RFC 9110 and no value holds a line break, in every map order. |
| `CustomHeaders.ApplyCustomHeaders` | tunnel/customheaders.go:13-24 | Sets each header once, in some order, and changes nothing but the host field and the header map. |
| `CustomHeaders.EachPlaceSet` | tunnel/customheaders.go:10-24 | Each configured name ends with exactly its value, Host in the request field, and every other header is as it was. |
| `CustomHeaders.OrderIrrelevantIff` | tunnel/customheaders.go:14 | The request is the same in every map order exactly if names with one place ask for one value. |
| `CustomHeaders.Idempotent` | tunnel/customheaders.go:13-24 | Applying the headers again, in any order, changes nothing. |
| `CustomHeaders.HostIffCanonical` | tunnel/customheaders.go:15-20 | A valid name goes to the host field exactly if its canonical form is Host. |
| `CustomHeaders.TokenIsVisibleButNoDelimiter` | tunnel/customheaders.go:46-63 | The characters of a valid name are the visible ones that are not delimiters, as section 5.6.2 of RFC 9110 defines them. |
| `CustomHeaders.SamePlaceIff` | tunnel/customheaders.go:13-24 | Two valid names go to one place exactly if they differ in case only. |
| `CustomHeaders.DistinctIsConsistent` | tunnel/customheaders.go:29-43 | Validated names that stay distinct in canonical form never compete, and none lands in the header map as Host. |
| `CompetingHeaders.OrderCanMatter` | tunnel/customheaders.go:13-43 | A map that passes validation and gives different requests in two orders. |

## Left out

- DialMatching.NoCrosstalk: HTTP dials of one session only; websocket dials share the same acceptors and streams do not say which kind they are, and a dial may take its control from one session and its stream from the next after a reconnect.
- DialMatching.AcceptorsMatchStreams: a control message that could not be sent is taken not to have reached the client, and one message is taken to be written at a time.
- Handover.BytesSurvive: bytes the caller sends before the upgrade response are discarded at the hijack (tunnel/server.go:336); section 4.1 of RFC 6455 has the caller wait for the response.
- Handover.HandOver: the connections it closes after a failed write are not modelled, nor the dial that comes before.
- Join.JoinDelivers: an end of stream means that the peer has sent everything; half-closed transport states below that are not modelled.
- LockSafety.OneInsideDeleteSession: the mutexes of the host, state and control tables are taken inside single sections and not modelled as locks of their own.
- Serial.HandlerRunIsLockRun: names sessions and controls in the order they are created.
- ClientRequests.DrainEnds: a proxied call returns when its local server does, which nothing bounds; the ten seconds after which `Close` stops waiting are not modelled, only the goroutine that goes on to wait.
- ClientLoop.Client.Start: runs for a finite sequence of attempts, since every property of an endless run is one of its finite prefixes; what `Close` does besides setting the flag (waiting for requests, closing the session) is left to the environment.
- OneShot.EveryRegistrationAccountedFor: what a callback itself does or returns is not modelled.
- Server.Server.ChangeState: changes are recorded as offered; the channel drops them when its reader is slow.
- TokenLists.ApplyEnvList: reading the JSON array is a parameter.
- yamux, TCP, TLS, the parsing and writing of HTTP and JSON: queues, byte sequences and outcomes.
- HMAC and base64, regular expressions, `path.Clean`, `net.SplitHostPort`: functions of which nothing is assumed.
- Durations, timeouts as times, and the formula of the exponential backoff: a timeout may happen at any time, and the backoff counts its calls.
- `targetAddress`, `sameListenAddress`, the URL handling of `patchRequest`, the single-value environment settings: short branches over library parsers.
- Listing, logging, flags, files, `main`, Docker: plumbing.
- What a session that `addSession` has replaced still does on its connection, until that connection ends by itself.
