# The policy server's cores, modelled and proved

The repository is a PCRF: a policy server that speaks Gx (3GPP TS 29.212) to gateways and traffic
inspectors on top of freeDiameter and an Oracle database. Under the Diameter and database plumbing
lie several small stateful cores. This project models them in Dafny and proves what they keep over
whole runs, under every interleaving where threads are involved.

| file | what it models |
|---|---|
| `DbPool.dfy` | the database connection pool: a semaphore and one lock per list node |
| `SessionCache.dfy` | the session records and their four secondary maps, as functions |
| `SessionStore.dfy` | the same operations in place, proved against those functions |
| `SessionLinks.dfy` | the parent and child link maps, whatever the callers do |
| `SessionIndexes.dfy` | the Framed-IP and subscriber indexes, one operation at a time |
| `SessionRuns.dfy` | all five maps over whole runs |
| `SessionRecords.dfy` | completing a request from a record, storing it back, following a parent |
| `CcrFlow.dfy` | the credit control handler's use of the cache, one critical section at a time |
| `CcrRuns.dfy` | any number of handlers at work together: exactly when the cache stays right |
| `CcrDiscipline.dfy` | what makes a prepared request fit, and what keeps it fitting until it is stored |
| `CcrOrderly.dfy`, `CcrExamples.dfy` | requests served one after another; runs in which the cache goes wrong |
| `SqlQueue.dfy`, `SqlShards.dfy` | the write-behind SQL queue: one worker, then all queues together |
| `SqlDelivery.dfy` | where statements handed in go, that each arrives, and when they are committed |
| `TimedOper.dfy`, `TimedExchange.dfy` | the requester and worker handshake: as a state machine, then in place |
| `TimedOutput.dfy` | what the worker publishes and the handler returns with, told from the events that happened |
| `RuleCache.dfy`, `RuleRefresh.dfy` | the rule cache; comparing installed rules with wanted ones |
| `RefreshFlow.dfy` | the refresh path, one critical section at a time, amid others |
| `RefreshQueue.dfy` | the timed local refresh queue |
| `RuleList.dfy` | the rule list parser |
| `Crc16.dfy` | the table checksum |
| `NetworkCodes.dfy`, `UserLocation.dfy` | country and network codes as printed; the location decoder and printer |
| `Common.dfy`, `DecimalText.dfy` | shared types; decimal text |

Check it with `dafny verify dfyconfig.toml`.

## How it is modelled

* Threads are state machines whose events are the steps between which another thread may run. A run
  is any sequence of events each of which was possible when it came, for any number of clients,
  queues or requests. Where the source has an object or a global that is updated in place there is
  also a class with the same fields, and its methods are proved to do what the state machine says;
  the methods that stand for a whole thread let the others run between their steps.
* A nullable value keeps its content beside its null mark, as the OTL values do.
* The database behind a connection is a committed sequence and a pending one; re-establishing a
  connection discards what is pending.
* Time, other threads' moves, statement outcomes, the peer list, the subscriber profiles and the
  rule catalogue are parameters.
* Calls to the pthread, semaphore and clock functions, commits, and building and sending AVPs are
  taken to succeed.

## What turned out not to hold

The models follow the code. Where a promise fails, the exact condition is proved and a run or an
input shows the failure.

* A request handler looks a core session up and stores its own session in separate critical
  sections. If the core session ends in between, the new session is linked to a dead parent
  (`CcrRuns.StoreKeepsInvIff`, `CcrExamples.LateStoreLinksToTheDead`).
* An update or a repeated initial request that changes a session's subscriber, or a core session's
  address, leaves the indexes behind (`CcrDiscipline.UpdateFitsIff`, `RepeatFitsIff`). A UGW update
  with a new address does (`CcrExamples.MovedAddressBreaksTheIndex`); so does a repeated initial
  request under another profile (`RepeatBreaksTheIndex`), and Procera's update after its address has
  passed to another subscriber, because Procera's core session is looked up by address alone
  (`ReassignedAddressBreaksTheIndex`).
* A session that has a child list and is another session's child keeps its link as a child when it
  is removed (`SessionLinks.UnlinkLeavesTraceIff`, `CcrExamples.BothRolesLeaveATrace`). A request of
  a new session never makes one when nobody disturbs it (`CcrDiscipline.NewSessionFits`); a command
  from another server can, as it brings its parent's id along (src/pcrf_ipc.cpp:367). That server
  names a parent only for peers it knows as SCE or Procera, so the two servers must have configured
  the peer differently.
* A release of a connection that is not held breaks the pool's counting, whatever its size
  (`DbPool.StrayReleaseBreaksTheScan`).
* A session id whose trailing number is negative may select no queue at all
  (`SqlShards.RouteInRange`, `NegativeIdSelectsNoQueue`).
* A refused request leaks the object it had prepared (`TimedOper.EveryRunIsSafe`,
  `RefusedRequestLeaks`).
* The checksum misses some differences in two neighbouring bytes: exactly those where the first
  changes nothing in the low byte and the second undoes what it did to the high one
  (`Crc16.TwoByteErrorsMissed`, `MissedErrorExists`).
* A refresh reads a session's rules and repairs them in separate critical sections. A change that
  somebody else makes to the same session in between may have the last word
  (`RefreshFlow.PassConvergesIff`); a session that ends in between comes back with the rules added
  after that (`RefreshFlow.EndedSessionComesBack`).
* A blank rule name is never removed by a refresh; only a command of another server, which is not
  checked, can bring one in (`RuleCache.BlankNamesAreAdded`, `RefreshFlow.BlankNameStays`).
* Some country and network codes with a half-octet above nine share their text with another code,
  most do not: exactly which do is `NetworkCodes.AmbiguousIff`, and with whom `MccAlikeIff` and
  `MncAlikeIff`; `UserLocation.NonDecimalCodesCollide` is an input.
* A combined location prints its cell under the tracking area's network
  (`UserLocation.CombinedCellIff`, `BorderCellIsMisprinted`).

## Model

The first 26 rows are the main results.

| member | source | states |
|---|---|---|
| `DbPool.EveryRunIsSafe` | src/pcrf_db_pool.cpp:43-217 | from the initial pool, under every interleaving: permits plus owners are as many as the nodes, that is the configured number or one; no connection has two holders, and a locked one has a holder; every scanner is at a node of the list, the failing branch is never possible |
| `DbPool.OwnersGetThrough` | src/pcrf_db_pool.cpp:127-217 | in every state kept: a permit owner can always step, each of its own steps brings it closer to the end and no other's holds it up; a newcomer gets a permit exactly while there are fewer owners than nodes |
| `SessionRuns.StepKeepsInvIff` | src/pcrf_session_cache.cpp:94-285 | one step keeps both indexes exact, the links inverse, two-level and within one subscriber if and only if it is legal |
| `SessionRuns.EveryLegalRun` | src/pcrf_session_cache.cpp:94-285 | so does every legal run from the empty cache |
| `SessionLinks.LinksAlwaysInverse` | src/pcrf_session_cache_index.cpp:124-219 | in every run, with no assumption on the callers, c is in parent[p] if and only if child[c] = p |
| `SessionRuns.DeadLeaveNoTrace` | src/pcrf_session_cache_index.cpp:46-312 | only live sessions occur anywhere in the five maps |
| `SessionRuns.FindsTheNewestCore` | src/pcrf_server.cpp:2284-2302 | looking an address up gives the most recently created live UGW or Ericsson session there, and fails if and only if there is none |
| `CcrRuns.EveryInterleavingIff` | src/pcrf_server.cpp:179-289 | for any number of handlers and every interleaving of their sections, with terminations and other parts of the server at work: the cache is right throughout if and only if every request still fits when it is stored |
| `CcrDiscipline.EveryDisciplinedRun` | src/pcrf_server.cpp:179-289 | under every interleaving, if requests fit when they have been prepared and nobody disturbs a prepared one, the cache is right throughout |
| `SqlShards.SessionsCompleteInOrder` | src/pcrf_sql_queue.cpp:297-322 | in every run of all workers, the statements of a session whose id contains ';' complete in the order they were handed in, and the rest wait in that order in one queue |
| `SqlShards.DatabasesAgree` | src/pcrf_sql_queue.cpp:205-265 | in every run each database holds exactly its worker's successful statements, in order unless a connection was lost, with at most 100 pending and none between passes |
| `SqlDelivery.EveryStatementArrives` | src/pcrf_sql_queue.cpp:284-327 | in every run every statement handed in arrives, whatever its session: what left a queue followed by what waits there is what was dealt to it, in order; what completed anywhere with what waits anywhere is what was handed in; statements without a number go round the queues, one of session "...;n" goes to queue n modulo their number |
| `TimedOper.EveryRunIsSafe` | src/data_proc/pcrf_timed_oper.cpp:73-292 | under every interleaving of any number of requests: the counter is right; a finished handler has the worker's whole published output added to what the caller came with, its own quotas first, or its request type's defaults and the flag raised, never part of either; a handler that took the output had a worker that never saw the flag; the object is freed once, and exactly the refused requests leak theirs |
| `TimedOutput.EveryRequestIsAnswered` | src/data_proc/pcrf_timed_oper.cpp:73-292 | in every run of all requests, from the events of each one's two threads alone: a handler that got the worker's data returns with its own rules followed by those the rules answer told, if the action set on entry or a usage answer that counts asked for rules, and with the quotas the last answer told; any other with its request type's defaults, the flag raised |
| `TimedOper.StepDecreases` | src/data_proc/pcrf_timed_oper.cpp:73-292 | every step makes progress, so no pair runs forever |
| `TimedOper.NoDeadlock` | src/data_proc/pcrf_timed_oper.cpp:73-292 | as long as a pair is not through somebody can step, and the requester always can until it is through |
| `RefreshFlow.PassConvergesIff` | src/pcrf_client.cpp:500-563 | one refresh, amid any changes of others between its sections, leaves the wanted names if and only if every name was changed last, after the read, by the refresh itself or in agreement with the wanted list, and no blank name was there |
| `RefreshFlow.RefreshFromText` | src/pcrf_client.cpp:484-563 | for every list text and catalogue that give the session rules, a refresh whose session nobody else touches after its read makes the cached names exactly the loaded ones, whatever others did before and to other sessions; the next refresh from the same list changes and sends nothing |
| `RefreshFlow.RecordConverges` | src/pcrf_client.cpp:421-573 | after a record each session that nobody else touched has its wanted rules, if it was reached and could be refreshed, and else what it had, whatever happened to the others |
| `RefreshQueue.EveryRunConserves` | src/pcrf_client.cpp:630-737 | over every run, for each time, what was handed out followed by what waits is what was filed, in order; every batch is sorted and none of it early |
| `RuleList.ParseOfRender` | src/pcrf_server_db_oper.cpp:439-481 | parsing rendered rows gives back exactly their names and refresh times in order |
| `Crc16.OneByteErrorsAreCaught` | src/pcrf_crc.cpp:45-58 | messages that differ in exactly one byte never collide |
| `Crc16.TwoByteErrorsMissed` | src/pcrf_crc.cpp:45-58 | exactly which differences in two neighbouring bytes are missed |
| `UserLocation.PrintedAlikeIff` | src/pcrf_ULI.cpp:85-349 | two locations of one kind, whatever their codes, are printed alike if and only if they agree on all but the dropped bits, the codes up to their twins |
| `UserLocation.TextsSayTheOctets` | src/pcrf_ULI.cpp:85-349 | for every complete location, from its octets alone: which texts are set, that the others stay, and that each text reads back to the codes and numbers the octets hold |
| `NetworkCodes.AmbiguousIff` | src/pcrf_ULI.cpp:175-180 | a printed code fails to tell which code it is if and only if its half-octets have one of the forms listed; a decimal code never does |
| `DbPool.StepPastCrowd` | src/pcrf_db_pool.cpp:150-158 | a client steps past a node only because another permit owner holds it, so the clients at or past slot k never outnumber the slots from k on |
| `DbPool.ScanNeverFails` | src/pcrf_db_pool.cpp:160-171 | a client that won the semaphore never runs off the end of the list: the "free db connection not found" branch is unreachable |
| `DbPool.StepKeepsInv` | src/pcrf_db_pool.cpp:127-217 | every step of every client keeps permits plus owners equal to the pool size, one holder per locked node, and the crowd bound |
| `DbPool.QuiescentPoolIsFull` | src/pcrf_db_pool.cpp:196-209 | when the last client has posted, every node is unlocked and has its permit: no lock and no permit leaks |
| `DbPool.StrayReleaseBreaksTheScan` | src/pcrf_db_pool.cpp:196-209 | a release of a connection not held always breaks the invariant, and in a pool of any size a run then leads off the end of the list |
| `DbPool.ConnectionPool.constructor` | src/pcrf_db_pool.cpp:43-95 | builds the pool node by node: the configured number or one, all unlocked, with a permit each |
| `DbPool.ConnectionPool.SemWait` | src/pcrf_db_pool.cpp:138-145 | takes a permit if there is one |
| `DbPool.ConnectionPool.TryLockNode` | src/pcrf_db_pool.cpp:150-158 | takes the node the client has reached if it is unlocked, otherwise moves on |
| `DbPool.ConnectionPool.UnlockNode` | src/pcrf_db_pool.cpp:196-207 | unlocks the node; the permit is still out |
| `DbPool.ConnectionPool.SemPost` | src/pcrf_db_pool.cpp:208-209 | gives the permit back |
| `DbPool.ConnectionPool.Interfere` | src/pcrf_db_pool.cpp:127-217 | any other clients' steps keep the invariant and leave this client where it is |
| `DbPool.ConnectionPool.Get` | src/pcrf_db_pool.cpp:127-174 | with arbitrary interference before every step the scan ends with a node held by this client, or the wait timed out; the error code is never returned, and no timeout if a permit is left and nobody comes before |
| `DbPool.ConnectionPool.Release` | src/pcrf_db_pool.cpp:176-217 | unlock, interference, post: the client is out and the invariant holds |
| `SessionStore.Store.IndexIp` | src/pcrf_session_cache_index.cpp:46-64 | appends the session to the address's list and changes nothing else |
| `SessionStore.Store.UnindexIp` | src/pcrf_session_cache_index.cpp:66-89 | removes every occurrence of the session from that one list |
| `SessionStore.Store.IndexSubscriber` | src/pcrf_session_cache_index.cpp:260-274 | adds the session to the subscriber's set |
| `SessionStore.Store.UnindexSubscriber` | src/pcrf_session_cache_index.cpp:302-312 | removes it from that set |
| `SessionStore.Store.MakeLink` | src/pcrf_session_cache_index.cpp:156-186 | links a child to a parent, re-parenting it if it had another one, with the double entry this leaves |
| `SessionStore.Store.Unlink` | src/pcrf_session_cache_index.cpp:188-219 | drops a parent's list and its children's links to it, or else a child's own link |
| `SessionStore.Store.UpdateSomeValues` | src/pcrf_session_cache.cpp:541-567 | overlays one record with another's non-null fields, the location as a unit |
| `SessionStore.Store.UpdateChildren` | src/pcrf_session_cache_index.cpp:111-122 | overlays every live listed child once, however often it is listed |
| `SessionStore.Store.InsertLocal` | src/pcrf_session_cache.cpp:94-143 | replaces a live session's record and passes it on, or creates, indexes and links a new session: the whole new state |
| `SessionStore.Store.Insert` | src/pcrf_session_cache.cpp:145-180 | builds the record from session and request data; an empty id does nothing |
| `SessionStore.Store.CompleteInfo` | src/pcrf_session_cache.cpp:196-208 | fills what the caller's session data leaves null; the subscriber is always overwritten |
| `SessionStore.Store.CompleteRequest` | src/pcrf_session_cache.cpp:210-228 | fills what the caller's request data leaves null; the location only as a whole |
| `SessionStore.Store.Get` | src/pcrf_session_cache.cpp:182-246 | looks a session up, completes only what was asked for, and reports the parent if there is one |
| `SessionStore.Store.RemoveLocal` | src/pcrf_session_cache.cpp:248-285 | unlinks, then unindexes and erases a live session; reports whether there was one |
| `SessionStore.Store.SessionList` | src/pcrf_session_cache_index.cpp:25-44 | the sessions listed for an address |
| `SessionLinks.LinkKeepsInverse` | src/pcrf_session_cache_index.cpp:156-186 | linking keeps the two link maps inverse relations and changes the one child's parent only |
| `SessionLinks.UnlinkKeepsInverse` | src/pcrf_session_cache_index.cpp:188-219 | so does unlinking, which removes exactly the links to a parent, or exactly the child's own |
| `SessionLinks.UnlinkLeavesTraceIff` | src/pcrf_session_cache_index.cpp:188-219 | unlinking leaves a trace of the session if and only if it had a child list and a parent other than itself |
| `SessionIndexes.InsertSubscriberExactIff` | src/pcrf_session_cache.cpp:94-143 | inserting keeps every subscriber's set exact if and only if the session is new or the update leaves its own and its live children's subscriber alone |
| `SessionIndexes.RemoveSubscriberExact` | src/pcrf_session_cache.cpp:248-285 | removing always keeps the sets exact |
| `SessionIndexes.UpdateIpExactIff` | src/pcrf_session_cache.cpp:104-114 | updating keeps every address's list exact if and only if it leaves every core session's address alone, its own and its children's |
| `SessionIndexes.CreateIpExact` | src/pcrf_session_cache.cpp:115-127 | creating a session keeps every list exactly the live core sessions in order of creation |
| `SessionIndexes.CreateIndexes` | src/pcrf_session_cache.cpp:119-125 | creating a session appends it to its address's list and to no other if its peer is a UGW or Ericsson one, and changes no list for any other peer |
| `SessionIndexes.RemoveIpExact` | src/pcrf_session_cache.cpp:248-285 | so does removing one |
| `SessionRuns.BothEndsLive` | src/pcrf_session_cache_index.cpp:124-219 | both ends of every link are live, a core parent and another peer's child, of one subscriber |
| `SessionRuns.RemovedLeavesNoTrace` | src/pcrf_session_cache.cpp:248-285 | a removed session's id occurs in none of the five maps |
| `SessionRuns.ListsAreInOrderOfCreation` | src/pcrf_session_cache_index.cpp:46-89 | an address's list has no duplicates and names an earlier session before a later one |
| `SessionRecords.RefreshKeepsWhatIsKnown` | src/pcrf_session_cache.cpp:145-228 | get then insert: each non-location field is the message's if told, else the record's, and a known one never becomes null; the numbers beside the access types are always the record's |
| `SessionRecords.RefreshLocatesAsAUnit` | src/pcrf_session_cache.cpp:219-228 | CGI, ECGI and TAI are the message's or the record's as a whole |
| `SessionRecords.RefreshKeepsSubscriberIff` | src/pcrf_session_cache.cpp:196-201 | the subscriber is kept if and only if the record has one |
| `SessionRecords.CompletionIsIdempotent` | src/pcrf_session_cache.cpp:182-228 | a lookup is idempotent: completing a request twice is completing it once |
| `SessionRecords.RefreshIsIdempotent` | src/pcrf_session_cache.cpp:145-228 | a repeated request changes nothing more |
| `SessionRecords.SilentRefreshIff` | src/pcrf_session_cache.cpp:145-228 | a message that tells nothing leaves the record unchanged if and only if it has a subscriber |
| `SessionRecords.OverlayIsLeast` | src/pcrf_session_cache.cpp:541-567 | following a parent's record makes the child agree with it and changes nothing that already agrees or that the parent leaves open |
| `SessionRecords.ChildrenFollow` | src/pcrf_session_cache_index.cpp:111-122 | after a live session is re-inserted every live linked child agrees with it on each non-null propagated field, and no other record has changed |
| `CcrFlow.FindCore` | src/pcrf_server.cpp:2284-2302 | with others at work before the list is read and again before its last entry is checked: the core session found is what those two sections lead to |
| `CcrFlow.JoinCore` | src/pcrf_server.cpp:189-213 | the same with the completion, a third section: a core session that has died meanwhile completes nothing but stays the one to link to |
| `CcrFlow.ServeInitial` | src/pcrf_server.cpp:179-218 | an initial request, section by section, with other threads changing the cache before each |
| `CcrFlow.ServeUpdate` | src/pcrf_server.cpp:237-284 | an update likewise; its store comes last and only if its triggers ask for it (435-440) |
| `CcrFlow.ServeTermination` | src/pcrf_server.cpp:219-236 | a termination removes the session |
| `CcrFlow.AloneIsAtomic` | src/pcrf_server.cpp:179-284 | a handler that nobody disturbs does to the cache what one step would |
| `CcrRuns.ActionKeepsOk` | src/pcrf_server.cpp:179-284 | whatever the cache does meanwhile, every handler works for its own session and peer and names a core session only for a peer that is not a core peer |
| `CcrRuns.StoreKeepsInvIff` | src/pcrf_server.cpp:218 | a store keeps all five maps right if and only if, when it comes, a live session keeps its keys and a new one's core session, if any, is still a live core session of its subscriber |
| `CcrDiscipline.LegalStepKeepsKeys` | src/pcrf_session_cache.cpp:94-285 | a legal operation on the cache keeps every other session's subscriber, role and core address |
| `CcrDiscipline.StepKeepsStoreOk` | src/pcrf_server.cpp:179-289 | a prepared request goes on fitting through any legal step that does not end its session or its core session or create its session |
| `CcrDiscipline.RunKeepsStoreOk` | src/pcrf_server.cpp:179-289 | and through any number of them |
| `CcrDiscipline.TakenFitsIff` | src/pcrf_server.cpp:193 | a new session's completed request fits if and only if its core session is still live when it is taken |
| `CcrDiscipline.FoundCore` | src/pcrf_server.cpp:2284-2302 | the core session found without disturbance is live and was created by a core peer |
| `CcrDiscipline.NewSessionFits` | src/pcrf_server.cpp:179-284 | a request of a new session, prepared without disturbance, fits whatever the peer |
| `CcrDiscipline.RepeatFitsIff` | src/pcrf_server.cpp:179-218 | an initial request of a live session fits if and only if the subscriber it resolves to is the one stored and a core session's address is the one stored |
| `CcrDiscipline.UpdateFitsIff` | src/pcrf_server.cpp:237-284 | an update of a live session fits if and only if the session has a subscriber, the core session Procera's address leads to has that subscriber, and a core session keeps its address |
| `CcrOrderly.ServeKeepsInvIff` | src/pcrf_server.cpp:179-284 | serving a request without disturbance keeps all five maps right if and only if it keeps those keys |
| `CcrOrderly.InitialOfKnownIsLegalIff` | src/pcrf_server.cpp:179-218 | for an initial request of a live session in particular |
| `CcrOrderly.EveryOrderlyRun` | src/pcrf_server.cpp:179-289 | every run of requests that keep the keys, served one after another, repeated initial requests included, keeps the cache right |
| `CcrOrderly.CoreIsFoundByItsAddress` | src/pcrf_server.cpp:179-218 | a new session of a UGW or Ericsson peer, under its profile's subscriber, is what the next look-up at its address finds |
| `CcrOrderly.OthersAreNotFound` | src/pcrf_server.cpp:179-218 | a new session of any other peer leaves every look-up as it was |
| `CcrOrderly.ChildIsLinked` | src/pcrf_server.cpp:179-218 | served without disturbance, a new session of a Procera peer is linked to the newest core session at its address, one of an SCE peer if the profile's subscriber is that session's, and every other new session to none |
| `CcrOrderly.InitialStoresWhatIsTold` | src/pcrf_server.cpp:179-218 | the record stored for an initial request: each field is the message's if told, else the core session's; the location as a whole; the two numbers are the core session's if there is one |
| `CcrOrderly.InitialStoresItsSubscriber` | src/pcrf_server.cpp:179-218 | its subscriber is the profile's for UGW, Ericsson and SCE, the core session's for Procera, and else the one it came with |
| `CcrOrderly.TerminationLeavesNoTrace` | src/pcrf_server.cpp:219-236 | a terminated session occurs in none of the five maps |
| `CcrOrderly.UpdateSeeksItsCore` | src/pcrf_server.cpp:237-284 | an update belongs to the newest core session at the address told, or else recorded; for SCE if its subscriber is the record's |
| `CcrOrderly.UpdateStoresItsSubscriber` | src/pcrf_server.cpp:237-284 | the subscriber stored for an update is the core session's if there is one, and else the record's |
| `CcrOrderly.UnstoredUpdateChangesNothing` | src/pcrf_server.cpp:435-440 | an update whose triggers do not ask for it changes nothing in the cache |
| `CcrOrderly.UpdateKeepsWhatIsKnown` | src/pcrf_server.cpp:237-284 | the record stored for an update: each field is the message's if told, else the record's if known, else the core session's; none that is known is forgotten |
| `CcrOrderly.UpdateLocatesAsAUnit` | src/pcrf_server.cpp:237-284 | and its location, as a whole, likewise |
| `CcrExamples.LateStoreLinksToTheDead` | src/pcrf_server.cpp:199-235 | a run: the core session ends between a Procera request's looks and its store, and the new session is linked to a dead parent |
| `CcrExamples.ReassignedAddressBreaksTheIndex` | src/pcrf_server.cpp:268-277 | a run: after an address has passed to another subscriber, Procera's update leaves its session indexed under a subscriber it no longer has |
| `CcrExamples.MovedAddressBreaksTheIndex` | src/pcrf_server.cpp:237-253 | a run: a UGW update with a new address leaves the session listed at the old one only |
| `CcrExamples.RepeatBreaksTheIndex` | src/pcrf_server.cpp:179-218 | a run: a repeated initial request under another profile leaves the session indexed under its old subscriber |
| `CcrExamples.BothRolesLeaveATrace` | src/pcrf_session_cache_index.cpp:188-219 | a run: a removed session that was a parent and a child is still linked to its parent |
| `SqlQueue.DoneKeepsInv` | src/pcrf_sql_queue.cpp:220-241 | a successful statement is appended to what the database holds, committed or pending, and the pending ones stay within the counter |
| `SqlQueue.FailedKeepsInv` | src/pcrf_sql_queue.cpp:127-137 | a failing statement, even one that asks for a rollback, undoes nothing but itself; without a rollback it changes nothing in the database |
| `SqlQueue.LostKeepsInv` | src/pcrf_sql_queue.cpp:242-253 | one lost connection costs at most 100 executed statements, none if the statement in hand had asked for a rollback; the statement stays at the head of the queue and the pass is over |
| `SqlQueue.EndKeepsInv` | src/pcrf_sql_queue.cpp:261-265 | a pass ends with nothing pending and nothing dropped |
| `SqlQueue.ExecKeepsInv` | src/pcrf_sql_queue.cpp:211-260 | every turn keeps: dequeued then queued statements are the enqueue history; committed, pending and lost statements are the successful ones, in order if none was lost; what is committed stays, and a statement that asks for a rollback has all that was pending committed first |
| `SqlQueue.QueueWorker.ExecuteHead` | src/pcrf_sql_queue.cpp:211-259 | one iteration of the inner loop, commit by commit: the whole new state |
| `SqlQueue.QueueWorker.EndPass` | src/pcrf_sql_queue.cpp:261-265 | commits what is left |
| `SqlQueue.QueueWorker.Drain` | src/pcrf_sql_queue.cpp:205-265 | a whole pass over the queue does the turns of its script and ends with nothing pending; without a lost connection the queue is empty |
| `SqlShards.RouteInRange` | src/pcrf_sql_queue.cpp:297-314 | the computed number names a queue if and only if the trailing id is absent, not negative, or a multiple of the number of queues; a negative one can only name the first |
| `SqlShards.NegativeIdSelectsNoQueue` | src/pcrf_sql_queue.cpp:304-306 | the session id "a;-1" with two queues selects number 4294967295 |
| `SqlShards.QueueSet.Enqueue` | src/pcrf_sql_queue.cpp:284-327 | appends the statement to the queue computed and to no other; a number that names no queue is reported |
| `SqlShards.StepKeepsInv` | src/pcrf_sql_queue.cpp:164-327 | every step of every worker and caller keeps each queue's invariant and every session's statements at one queue in order |
| `SqlDelivery.NumberedSessionsGoRound` | src/pcrf_sql_queue.cpp:297-308 | session ids that end in ;0, ;1, ;2, ... go round all the queues and leave the round-robin position alone |
| `SqlDelivery.StrtolOfDec` | src/pcrf_sql_queue.cpp:306 | decimal text is read as its number, with either sign, clamped to 64 bits |
| `SqlDelivery.CommitsWhen` | src/pcrf_sql_queue.cpp:220-240 | a success is committed at once if and only if more than 100 have succeeded since the count was last reset, or more than 10 and it is late; only the former resets the count |
| `SqlDelivery.CommitsEvery101` | src/pcrf_sql_queue.cpp:205-265 | over a run of successes that are not late and ask for no rollback, the statements go to the database in order and a commit comes each time the count passes 100 |
| `TimedOper.StepKeepsInv` | src/data_proc/pcrf_timed_oper.cpp:73-292 | every step of either thread keeps the signals, the flag, the ownership and the caller's data consistent |
| `TimedOper.NoUseAfterFree` | src/data_proc/pcrf_timed_oper.cpp:286-288 | no step touches the shared object after it was freed |
| `TimedOper.WorkerBlocksOnlyOnRequester` | src/data_proc/pcrf_timed_oper.cpp:286 | the worker waits only for a requester that is not through |
| `TimedOper.CounterStep` | src/data_proc/pcrf_timed_oper.cpp:143-164 | the counter equals the number of handlers inside and stays within its limit |
| `TimedOper.RefusedRequestLeaks` | src/data_proc/pcrf_timed_oper.cpp:83-138 | a run: a refused request ends with its object never freed |
| `TimedOutput.StoryTellsEvents` | src/data_proc/pcrf_timed_oper.cpp:166-292 | the record kept of a run tells which answers the worker got, what the last of each told, and whether the flag was raised |
| `TimedOutput.WhatIsPublished` | src/data_proc/pcrf_timed_oper.cpp:166-292 | what any worker publishes, from the events alone and whether or not it saw the flag: the rules told if asked for, the monitoring keys' quotas or else the usage's if it counts, and the action set |
| `TimedOutput.WhatIsPublishedUnhurried` | src/data_proc/pcrf_timed_oper.cpp:166-292 | in particular for a worker that got a connection and never saw the flag: every answer it should have sought has come and is in the output |
| `TimedOutput.EachPairRuns` | src/data_proc/pcrf_timed_oper.cpp:73-292 | in a run of all requests each one's part is a run of its own |
| `TimedExchange.HandlerCounter.Increment` | src/data_proc/pcrf_timed_oper.cpp:143-157 | counts a handler in while there is room; the count is the number of handlers inside |
| `TimedExchange.HandlerCounter.Decrement` | src/data_proc/pcrf_timed_oper.cpp:159-164 | counts that handler out |
| `TimedExchange.Exchange.WorkerTurn` | src/data_proc/pcrf_timed_oper.cpp:166-292 | one step of the worker on the shared fields: the whole new state |
| `TimedExchange.Exchange.LetWorkerRun` | src/data_proc/pcrf_timed_oper.cpp:166-292 | the worker's steps change nothing of the requester's, and nothing of the output while it is being copied |
| `TimedExchange.Exchange.RequesterTurn` | src/data_proc/pcrf_timed_oper.cpp:73-141 | one step of the requester: the whole new state |
| `TimedExchange.Exchange.CopyBack` | src/data_proc/pcrf_timed_oper.cpp:101-118 | copies rules one by one, then quotas and actions, while the worker runs on |
| `TimedExchange.Exchange.FallBack` | src/data_proc/pcrf_timed_oper.cpp:119-136 | raises the flag and takes the defaults |
| `TimedExchange.Exchange.Serve` | src/data_proc/pcrf_timed_oper.cpp:73-141 | the handler from start to end, with its worker running and other handlers coming and going: refused if and only if the counter is full when it asks; the caller ends with the whole published output or its request type's defaults, added to what it came with; the handler is no longer counted |
| `RuleCache.SessionRuleCache.Get` | src/pcrf_session_rule_cache.cpp:57-95 | appends the session's rules as installed and not yet relevant; an error if and only if there are none |
| `RuleCache.SessionRuleCache.InsertLocal` | src/pcrf_session_rule_cache.cpp:97-123 | appends one rule to one session |
| `RuleCache.SessionRuleCache.RemoveSessionLocal` | src/pcrf_session_rule_cache.cpp:125-146 | drops one session |
| `RuleCache.Meanwhile` | src/pcrf_session_rule_cache.cpp:97-180 | other threads' changes, one after another |
| `RuleCache.SessionRuleCache.RemoveRuleLocal` | src/pcrf_session_rule_cache.cpp:148-180 | erases every occurrence of a rule in one session |
| `RuleCache.SessionRuleCache.Insert` | src/pcrf_session_rule_cache.cpp:241-252 | the same as inserting locally, unless the session or the rule has no name |
| `RuleCache.SessionRuleCache.RemoveRule` | src/pcrf_session_rule_cache.cpp:254-265 | likewise for removing |
| `RuleRefresh.LoadRuleInfo` | src/pcrf_server.cpp:2133-2156 | the known rules in order; for SCE the first one of the lowest precedence value |
| `RuleRefresh.LoadedIsFresh` | src/cache/pcrf_rule_cache.cpp:136-163 | whatever is loaded is wanted, not installed, in the catalogue and among the names asked for; for others than SCE it is all of those, for SCE one of the lowest precedence value |
| `RuleRefresh.SelectNotRelevantActive` | src/pcrf_server.cpp:615-632 | marks, in place, exactly the wanted rules that are installed and the installed rules that are wanted |
| `RuleRefresh.IsAnyChanges` | src/pcrf_client.cpp:394-418 | 0 if and only if no installed rule is irrelevant and no wanted rule is missing |
| `RuleRefresh.NoChangesIffSameNames` | src/pcrf_client.cpp:394-418 | after the marking, no changes are reported if and only if the two lists name the same set of rules, for any order and duplicates |
| `RefreshFlow.MakeCRR` | src/pcrf_server.cpp:771-811 | drops each irrelevant rule of a supported peer from the cache, with other threads at work before each, and names it in the message, except for SCE |
| `RefreshFlow.MakeCRI` | src/pcrf_server.cpp:813-908 | adds each rule not installed to the cache, likewise, and names it in the message, except for SCE |
| `RuleRefresh.MarksSelect` | src/pcrf_server.cpp:615-632 | what is removed is installed minus wanted, what is installed is wanted minus installed |
| `RuleList.NamesAreNotEmpty` | src/pcrf_server_db_oper.cpp:439-467 | no list text yields an empty name |
| `RefreshFlow.UndisturbedPassConverges` | src/pcrf_client.cpp:500-563 | in particular when nobody else touches the session after the read |
| `RefreshFlow.PassLeavesOthers` | src/pcrf_client.cpp:500-563 | a refresh leaves every other session as if only the others had been at work |
| `RefreshFlow.OtherDialectsAreLeft` | src/pcrf_server.cpp:786-866 | a session whose peer is neither a UGW, Ericsson, Procera nor SCE one is left to the others, too |
| `RefreshFlow.ErasesFirst` | src/pcrf_client.cpp:240-262 | a refresh makes all its erasures before its first addition |
| `RefreshFlow.WhatIsSent` | src/pcrf_client.cpp:500-563 | a release without wanted rules, nothing if the names agree already, else one request: for UGW, Ericsson and Procera it names exactly what is to go and to come, for any other peer nothing |
| `RefreshFlow.NothingToDoIff` | src/pcrf_client.cpp:508-512 | a refresh sends and changes nothing if and only if the rules it reads have exactly the wanted names |
| `RefreshFlow.PeerHasTheWanted` | src/pcrf_client.cpp:240-262 | a peer that had the rules read has the wanted ones after applying the message |
| `RefreshFlow.PeerMirrorsCacheIff` | src/pcrf_client.cpp:240-262 | and the cache agrees with it under the same condition as the refresh converges |
| `RefreshFlow.RefreshSession` | src/pcrf_client.cpp:500-563 | one session: read, compare, remove and install, with others at work before each section of the rule cache |
| `RefreshFlow.EndedSessionComesBack` | src/pcrf_client.cpp:500-563 | a run: a session that ends between the read and the addition of a rule comes back with that rule alone |
| `RefreshFlow.BlankNameStays` | src/pcrf_session_rule_cache.cpp:97-123 | a blank name that another server's command added is never removed and its session never converges |
| `RuleCache.BlankNamesAreAdded` | src/pcrf_session_rule_cache.cpp:97-180 | a blank name comes into the rule cache only by a change that adds one, which this server never makes |
| `RefreshFlow.VisitSession` | src/pcrf_client.cpp:435-567 | one session, amid others: skipped, stopped, released or refreshed |
| `RefreshFlow.OperateRecord` | src/pcrf_client.cpp:421-573 | one record, amid others: the sessions in turn up to the first whose peer is not connected, which is reported |
| `RefreshFlow.ReachedAll` | src/pcrf_client.cpp:435-460 | a record is worked off up to the first session that the cache and the peer list know but whose peer is not connected |
| `RefreshFlow.WhatAVisitDoes` | src/pcrf_client.cpp:435-567 | by the facts found: nothing, a release that leaves the cache alone, or a refresh |
| `RefreshFlow.WhoIsReleased` | src/pcrf_client.cpp:435-567 | a record releases exactly the sessions known, connected, and to be aborted or without wanted rules; it sends requests only for those that are neither |
| `RefreshFlow.RecordFromTexts` | src/pcrf_client.cpp:421-573 | the same from the list texts on: each such session has exactly the rules loaded for its text |
| `RefreshQueue.NewEntry` | src/pcrf_client.cpp:706-714 | the identifier is the one given, the type the one given or empty; the action is null if and only if none or an empty one was given, and else is the one given |
| `RefreshQueue.AddedFilesLast` | src/pcrf_client.cpp:630-644 | a new entry goes behind those filed under the same time and touches no other time |
| `RefreshQueue.StepKeepsInv` | src/pcrf_client.cpp:630-737 | adding and loading keep the queue sorted and every time's entries in order; what a load leaves is later than its time |
| `RefreshQueue.NothingLostOrInvented` | src/pcrf_client.cpp:630-737 | each entry is delivered or waiting exactly as often as it was filed |
| `RefreshQueue.LocalQueue.Add` | src/pcrf_client.cpp:630-644 | inserts in place at the upper bound of its time |
| `RefreshQueue.LocalQueue.Load` | src/pcrf_client.cpp:716-737 | moves exactly the due entries, in order, to the end of the caller's list |
| `RefreshQueue.LoadTakesTheDue` | src/pcrf_client.cpp:716-737 | what a load takes is the entries due, one for one and in order, and none later |
| `RuleList.ParseRow` | src/pcrf_server_db_oper.cpp:439-467 | one row: its name and refresh time, or nothing |
| `RuleList.ParseList` | src/pcrf_server_db_oper.cpp:469-481 | the scan terminates and yields the terminated lines' results in order |
| `RuleList.RowAccepted` | src/pcrf_server_db_oper.cpp:439-467 | a row yields a name if and only if it is that name, non-empty and without TAB, followed by TAB; a time if and only if 19 characters follow |
| `RuleList.LinesOfJoin` | src/pcrf_server_db_oper.cpp:469-481 | splitting undoes joining, whatever unterminated tail follows |
| `RuleList.JoinOfLines` | src/pcrf_server_db_oper.cpp:469-481 | every text is its terminated lines and an unterminated tail |
| `RuleList.MalformedRowIsSkipped` | src/pcrf_server_db_oper.cpp:447-450 | a malformed row changes nothing about the rows around it |
| `Crc16.CalcCrc16` | src/pcrf_crc.cpp:45-58 | the loop computes the fold of the two-byte step over the buffer |
| `Crc16.ChecksumByByte` | src/pcrf_crc.cpp:50-55 | one more byte and the high byte so far select a pair of entries: one becomes the high byte, the other is added to the low byte |
| `Crc16.ChecksumOfNothing` | src/pcrf_crc.cpp:47-48 | the checksum starts with all bits set |
| `Crc16.TableBasis` | src/pcrf_crc.cpp:3-43 | the entries of the single bits, from which by linearity all follow |
| `Crc16.TablesAreLinear` | src/pcrf_crc.cpp:3-43 | both tables are linear over exclusive or |
| `Crc16.CollisionDependsOnDifference` | src/pcrf_crc.cpp:45-58 | two messages of one length collide if and only if their difference leads from zero to zero |
| `Crc16.AgreementHidesNothing` | src/pcrf_crc.cpp:50-55 | agreeing bytes never hide a difference once made |
| `Crc16.StretchVerdict` | src/pcrf_crc.cpp:45-58 | an error confined to a stretch is missed if and only if the stretch alone leads from zero to zero |
| `UserLocation.FormatCgi` | src/pcrf_ULI.cpp:223-254 | overwriting the last character and appending it again prints country, network, area, and the cell with its last digit apart |
| `UserLocation.FormatsJoin` | src/pcrf_ULI.cpp:280-349 | what the printers write is the dash-separated list of country, network and numbers |
| `UserLocation.ParseUserLocation` | src/pcrf_ULI.cpp:85-221 | for each kind at its full length, which texts are set and to what, octet by octet; a short input and an unknown kind set none and are told apart |
| `UserLocation.CgiReadsBack` | src/pcrf_ULI.cpp:175-254 | a printed CGI reads back as the texts of its codes, its area and its cell; decimal codes digit by digit |
| `UserLocation.PairReadsBack` | src/pcrf_ULI.cpp:327-349 | a printed ECGI or RAI reads back as the texts of its codes and both numbers; decimal codes digit by digit |
| `UserLocation.TaiReadsBack` | src/pcrf_ULI.cpp:304-325 | a printed TAI likewise |
| `UserLocation.DecimalCodes` | src/pcrf_ULI.cpp:175-180 | decimal codes can be read off their texts digit by digit, the low half of each octet first |
| `UserLocation.Samples` | src/pcrf_ULI.cpp:85-349 | the texts of four locations of network 250-01 |
| `NetworkCodes.MccAlikeIff` | src/pcrf_ULI.cpp:175-180 | two country codes have one text if and only if they are equal or twins, half-octet by half-octet |
| `NetworkCodes.MncAlikeIff` | src/pcrf_ULI.cpp:175-180 | two network codes likewise |
| `UserLocation.CodesAlikeIff` | src/pcrf_ULI.cpp:175-180 | two codes are printed alike if and only if both parts are equal or twins |
| `UserLocation.UnambiguousCodesAreKept` | src/pcrf_ULI.cpp:175-180 | a code that is not ambiguous is printed like another only if it is the same but for the third network digit |
| `UserLocation.NonDecimalCodesCollide` | src/pcrf_ULI.cpp:175-180 | an input: two locations with different country codes, printed alike |
| `UserLocation.CombinedCellIff` | src/pcrf_ULI.cpp:206-209 | a combined location's cell is printed as its own if and only if both network codes are printed alike |
| `UserLocation.BorderCellIsMisprinted` | src/pcrf_ULI.cpp:206-209 | an input: a cell printed as one of the neighbouring network |

## Left out

- TimedOper.EveryRunIsSafe: the worker's steps that read the flag and act on it in one condition are one step, and the flag is read and written atomically, as the source's `volatile int` suggests; the log line that reads the caller's action set (src/data_proc/pcrf_timed_oper.cpp:178) is not a step.
- DbPool.EveryRunIsSafe: the pool is fixed after it is built and each client releases its own connection once; failures of mutex initialisation and of connecting while the pool is built, and the scan for the released node by pointer, are not modelled.
- SqlQueue.QueueWorker.Drain: the outcomes, the clock and the arrivals come from a script; a script that ends before the pass does leaves it unfinished, which `complete` reports. The wait between passes and the first acquisition of a connection are not modelled.
- SqlShards.QueueSet.Enqueue: what the source does with a number that names no queue is not modelled beyond reporting it; the round-robin position, which the source changes without a lock, is changed atomically. The C library's strtol is modelled on ASCII text.
- SqlQueue.LostKeepsInv: a statement that is executed again after a lost connection is one arrival with one departure; whether the first attempt had reached the database is the connection's business.
- CcrRuns.EveryInterleavingIff: each section of a handler is atomic, since it runs under the cache's mutex; what a handler does between its sections (rules, quotas, messages, the database) does not touch the five maps. Requests carry a session id and an origin, which the base protocol requires. Messages to linked sessions and the check for stalled sessions are left out.
- CcrOrderly.EveryOrderlyRun: requests served one after another; `CcrRuns.EveryInterleavingIff` and `CcrDiscipline.EveryDisciplinedRun` are the results for handlers at work together.
- CcrOrderly.UpdateKeepsWhatIsKnown: for an update that nobody disturbs between its sections; likewise `CcrOrderly.UpdateLocatesAsAUnit`.
- SessionRuns.EveryLegalRun: the cache's start-up load from the database inserts like anybody else.
- RefreshQueue.EveryRunConserves: equal keys keep their insertion order, as the C++11 multimap does.
- RefreshFlow.RefreshFromText: AVP calls succeed, so every rule named by the reconciliation reaches the message; the list text and the catalogue are inputs; event triggers and monitoring keys are left out. Others' changes of the session between the read and the last change are excluded here and covered by `RefreshFlow.PassConvergesIff`.
- RefreshFlow.RecordConverges: likewise for the whole record; what is found out about each session (its peer, its wanted list) is an input, taken once per visit. `RefreshFlow.RecordFromTexts` likewise.
- RuleList.ParseRow: the refresh time is yielded as its 19 characters; reading it as a date and filing it in the refresh queue is left out.
- UserLocation.ParseUserLocation: a known kind is given at its full length or is refused as too short; the lengths in between and beyond, which the source's checks let through because they do not count the octet that names the kind, are not modelled. SAI sets nothing, as in the source.
- Crc16.OneByteErrorsAreCaught: nothing is claimed about any standard CRC; the update order is the repository's own.
- Rule convergence on the update request path is not claimed: the handler's vector of installed rules is copied by value before it is marked (src/data_proc/pcrf_timed_oper.h:32), so the marks never reach it.
- The agreement of the numeric RAT and IP-CAN types with their texts is not claimed: a lookup overwrites the numbers unconditionally (src/pcrf_session_cache.cpp:213, 217).
- Building, sending and reading Diameter messages, dictionaries and peers: library calls.
- SQL texts, stored procedures and quota computation: foreign code, abstracted to success, failure or a lost connection.
- Replication between servers, the Procera and Rx applications, the default rule selector, the subscriber profiles.
- Logging, statistics, tracing, CDR files and configuration.
- Action sets and QoS: settled by reading one branch.
