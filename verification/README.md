# A verified model of a SOCKS5 proxy

The proxy relays TCP streams for authenticated clients (RFC 1928 with the user name and password method of
RFC 1929) and is administered over a small management protocol. It is one thread around a `pselect` multiplexer,
a table-driven state machine for each connection, two shared byte buffers for each connection, parsers that take
one byte at a time, and resolver threads that hand their results back to the multiplexer.

No single file of it is hard. What is hard is that selector interests, the state of each connection, the
occupancy of its buffers and its reference count have to agree in every reachable state. That is what is proved
here, for every run: any interleaving of connections, any chunking of the input, any partial send, any failure.

## How it is built

`dafny verify dfyconfig.toml` checks the project with Dafny 4.11.

Code that changes state is modelled by classes with methods (`Buffer`, `Selector`, the parsers, `UserTable`,
`RunningAverage`, `CopyStage`, `StateMachine`, `Session`, `ManagerSession`, `Server`). Each method is proved to have the effect
that a function on values describes, and the theorems over whole runs are about those functions.

| file | what it holds |
|---|---|
| `Buffers.dfy`, `Feeding.dfy` | the byte buffer as a bounded queue; the consuming loop that drives every parser, and that chunking is invisible to it |
| `SelectorTable.dfy`, `Selector.dfy` | registrations as a map, and the dispatching pass in which every handler may change them; the slot array, master sets, greatest descriptor and capacity growth that implement it |
| `StateMachine.dfy` | the state tables and the engine, with the order of arrival and departure hooks |
| `HelloParser.dfy`, `RequestParser.dfy`, `FieldParser.dfy`, `Dissector.dfy` | each parser against a grammar on whole streams |
| `Users.dfy`, `Metrics.dfy`, `Management.dfy` | the user table, the running averages, the management replies with their client, the client's encoders |
| `HandOff.dfy` | resolver threads, mutex and signal as a state machine over their atomic actions |
| `Relay.dfy`, `CopyStage.dfy` | relaying between two sockets, as values and as the handlers run it |
| `Connection.dfy`, `ConnectionInvariant.dfy`, `StageTheorems.dfy`, `Session.dfy` | the stages of one connection as functions, what each of them keeps, what each does in the bytes of the protocol, and the stages before the relay as the handlers run them |
| `World.dfy`, `WorldInvariant.dfy`, `ProxyTheorems.dfy`, `Server.dfy` | the whole proxy as a state machine, its invariant, the theorems over all runs, and record allocation, accepting and closing as they run |
| `ProtocolTheorems.dfy`, `RunTheorems.dfy`, `RelayRuns.dfy` | what every run shows its clients, byte by byte, what it counts, and a relayed connection over a stretch of a run |
| `Service.dfy` | that clients who speak the protocol can be served, from every reachable state |
| `Passes.dfy`, `Drains.dfy` | a dispatching pass of the selector, and the draining of its list of finished resolutions, with the proxy's handlers, as runs of the proxy |
| `Manager.dfy`, `ManagerTheorems.dfy`, `ManagerRuns.dfy`, `ManagerSession.dfy` | the management server as a state machine, the theorems over its runs, what every run answers its clients, and its request stages as the handlers run them |

The stage functions are not their own specification: `StageTheorems.dfy`, `RunTheorems.dfy` and `ManagerRuns.dfy` state
what they do in terms of the bytes received and sent, without naming them.

A step of `WorldModule` is one handler call: a ready descriptor, a resolver thread that finishes, a finished job,
or a change made over the management protocol. What system calls return is part of the step and is constrained
only by what a caller may rely on: `recv` returns no more than the space offered, `send` takes no more than the
bytes offered, a new descriptor is not one in use. An abort, a null handler, a record used after its release, and
a counter that would go below zero are all one outcome, `Fault`.

## Where the code and its description differ

The model follows the code in each of these cases but the one that says otherwise.

- `include/dissec_parser.h:16` allows a user name or password of 255 bytes; the code stores at most 254 of a
  completed one, because the byte that ends a line is refused once 255 are stored.
- RFC 1928 lets a domain name have 255 bytes; the request parser refuses lengths above 254, and accepts a length
  of zero by treating the next byte as part of the address. `DoneIffRequest` states the accepted language exactly, and
  `DoneIffRfcRequest` exactly where it agrees with the RFC.
- A rejected request is never done (`src/Etapas/request.c:163-167`), so its connection stays in `REQUEST_READ`.
- A connection that cannot be started is answered by the arrival hook and again by the write handler, so the
  client receives two replies (`OneReplyIffConnecting`).
- End of stream turns off writing on the other side at once, and bytes still buffered are never delivered
  (`DeliveredIffDrained`, `ReceivedBytesCanBeLost`).
- `selector_register` grows the slot array when `fd > fd_size`, not `fd >= fd_size` (`RegisterNeedsRoom`).
- The size check of the list reply leaves out the length bytes (`ListReplyFits`, `ListReplyCanOverrun`).
- A connection that succeeds at once arms reading in a state that has no read handler (`ReadyIffNotImmediate`), and
  the next bytes of its client abort the server (`ImmediateFaults`). Runs exclude it.
- After a bad sub-negotiation version `auth_process` compares strings that have not been set
  (`CredentialsSetIffVersion`). Here the model does not follow the code: such a connection goes to `ERROR` at once.
- The client reads a reply into 500 bytes, which a list need not fit (`ListedIffRead`).
- `pool_size` counts records ever pooled and is not decremented; it bounds the length of the pool.

## Model

| member | source | states |
|---|---|---|
| `ProxyTheorems.NeverFaults` | `src/stm.c:53-87` | No run from start-up in which connecting takes its time reaches an abort, a null handler, a record used after its release, or a counter below zero; a bad sub-negotiation version is taken to end the connection before its credentials are looked up |
| `Service.ClientsCanBeServed` | `src/socks5nio.c:26-90` | In every reachable state a client that has just been accepted, offers the configured method and, if that is 0x02, has an entry in the table, has a run before it that ends with its connection relayed, for every accepted request, by address or by name |
| `ProxyTheorems.ImmediateFaults` | `src/Etapas/connecting.c:298-316` | In any reachable state a connect that succeeds at once leaves the client watched for reading in a state without a read handler, and the next readable event of the client aborts |
| `ProxyTheorems.EveryArmedIsReady` | `src/socks5nio.c:26-90` | In every reachable state, whatever the selector watches on a descriptor is an event its connection's current state has a handler for; the record exists and the descriptor is its client's or its origin's |
| `ProxyTheorems.EveryJobIsWaitedFor` | `src/Etapas/resolv.c:4-96` | Over all runs each client in REQUEST_RESOLV has exactly one resolver thread or finished job, nobody else has any, and nothing is watched for it meanwhile |
| `ProxyTheorems.ReferencesCountSlots` | `src/socks5nio.c:107-187` | Over all runs the reference count of a live record is the number of selector slots that carry it |
| `ProxyTheorems.PoolIsSafe` | `src/socks5nio.c:99-187` | No slot refers to a pooled or freed record, no record is both, and the pool's length is at most its counter, which is at most 50 |
| `ProxyTheorems.ReleasedOnce` | `src/socks5nio.c:283-302` | A record that goes out of use in a step has lost its last slot in it, and becomes pooled or freed but not both, having been neither |
| `ProxyTheorems.GateHolds` | `src/Etapas/hello.c:254-299` | Over all runs a connection in REQUEST_READ or later offered the selected method, and that method is 0x00, or 0x02 with a pair that the bytes it sent encode and that was in the table when checked; which of the two it is, `RunTheorems.GateAsksForCredentials` and `MethodIsFixed` say |
| `ProxyTheorems.CheckedAgainstRealTable` | `src/Etapas/authentication.c:322-342` | The table of every remembered credentials check is one that the server really had at some point of the run |
| `RunTheorems.GateAsksForCredentials` | `src/Etapas/hello.c:130-156` | In every run in which the server is configured to ask for credentials and stays so, a connection in REQUEST_READ or later offered 0x02, it was selected, and the pair its bytes encode was, at the moment of the check, an entry of a table that the server had |
| `RunTheorems.OpenProxyAsksNothing` | `src/Etapas/hello.c:130-156` | In every run in which the server is configured not to ask and stays so, such a connection offered 0x00 and it was selected |
| `RunTheorems.MethodIsFixed` | `src/Etapas/hello.c:146-153` | The method a connection looks for is the server's at its first event, whatever is configured later |
| `RunTheorems.OpeningOverRuns` | `src/Etapas/hello.c:170-230` | Over all runs the opening is answered as soon as it is complete, with the two bytes 5 and the wanted method if it is among those offered, else 255; another version ends the connection |
| `RunTheorems.MethodOverRuns` | `src/Etapas/hello.c:254-299` | Over all runs, once the answer is sent, method 0 leads to the request, 2 to the credentials, and 255 ends the connection |
| `RunTheorems.CredentialsOverRuns` | `src/Etapas/authentication.c:122-164` | Over all runs credentials are checked as soon as their message is complete: the result is 0 iff some entry of the table as it then is has the name and the password, and the index is that of the first such entry |
| `RunTheorems.VerdictOverRuns` | `src/Etapas/authentication.c:229-272` | Over all runs the client is sent 1 and the result, again on every call while there is room, and only a result of 0 leads to the request |
| `RunTheorems.RequestOverRuns` | `src/Etapas/request.c:98-260` | Over all runs a complete request that names its destination is resolved, one with an address is connected to, what the client sent behind it stays unread, and anything else is read on |
| `RunTheorems.ResolutionOverRuns` | `src/Etapas/resolv.c:65-96` | Over all runs a finished resolution reaches the client that waits for it: it goes on to connecting iff the name resolved, and is otherwise watched for writing with the reply 5, 1, 0, 1, 0, 0, 0, 0, 0, 0 |
| `RunTheorems.ConnectOverRuns` | `src/Etapas/connecting.c:57-247` | Over all runs the ten bytes left for the client are 5, the code, 0, 1 and six zeros; the code is 0 iff the origin connected, 5, 4, 3 or 6 for errno 111, 113, 101 or 110, and 1 for any other failure; a failure from the start is repeated unchanged |
| `RunTheorems.ReplyOverRuns` | `src/Etapas/request.c:262-303` | Over all runs, once the reply is sent, a connection that was reported as established is relayed with both directions open, and any other ends |
| `RunTheorems.RelayOverRuns` | `src/Etapas/copy.c:80-197` | Over all runs an event of a relayed connection is the step of its relay for that side, the connection ends iff both directions are closed, and the dissector is shown exactly the bytes read |
| `RelayRuns.RelayRun` | `src/Etapas/copy.c:80-197` | Over any stretch of a run, whatever other connections do, a relayed connection goes through a run of its relay, and its dissector is fed the bytes of both sides in the order they arrive |
| `RelayRuns.OriginGetsWhatFollowsRequest` | `src/Etapas/request.c:262-303` | Over all runs what the origin is sent is, in order and without a gap, what the client has sent behind its request |
| `RelayRuns.StepBesides` | `src/socks5nio.c:253-302` | An event that does not concern a connection leaves its record and its registrations alone |
| `RunTheorems.SettingsFollowChanges` | `src/Etapas/mng_request.c:446-488` | After any run the users and the method are those that the management server's changes make of the initial ones |
| `RunTheorems.CountersOverRuns` | `src/Etapas/connecting.c:115-122` | Over all runs an event counts a connection iff the origin of a connecting client has no socket error, ends one iff a relay ends, counts an attempt iff `connect` is called, and a check iff credentials are checked |
| `RunTheorems.CountersElsewhere` | `src/socks5nio.c:203-243` | No other event changes a counter |
| `RunTheorems.AcceptOverRuns` | `src/socks5nio.c:203-243` | Over all runs an accepted descriptor that can be registered gets a fresh record, from the pool if there is one in it, and is watched for reading; nothing else changes |
| `RunTheorems.ReleaseOverRuns` | `src/socks5nio.c:171-187` | Over all runs the record of a connection that ends is put at the head of the pool if fewer than 50 ever were, and freed otherwise |
| `ManagerTheorems.GateHolds` | `src/Etapas/hello.c:146-153` | Over all runs of the management server, a connection in MNG_REQUEST_READ_INDEX or later offered method 0x02, it was selected, and the pair its bytes encode is in the administrators' table |
| `ManagerTheorems.ChangesAreRequested` | `src/Etapas/mng_request.c:490-534` | Over all runs users, authentication method and dissector switch change only in an event of a connection that passed the gate, to what the bytes right behind its credentials ask for |
| `ManagerTheorems.ChangesAreProxyRuns` | `src/Etapas/mng_request.c:446-488` | What such a request changes is a run of the proxy: the changes the proxy is proved to withstand |
| `ManagerTheorems.FaultsIffOverrun` | `src/Etapas/mng_request.c:383-440` | After any run an event faults (null handler, abort, buffer overrun) iff it is the index of the list request and the list passes the size check without fitting an empty buffer |
| `ManagerTheorems.EveryArmedIsReady` | `src/mng_nio.c:17-70` | Over all runs each management connection is watched for something its state has a handler for |
| `ManagerTheorems.OpeningOk` | `src/Etapas/authentication.c:122-164` | The shared stages, run for a management connection against the administrators, keep its invariant up to the request |
| `ManagerTheorems.IndexOk` | `src/Etapas/mng_request.c:102-169` | The index stage keeps the invariant and overruns exactly on an oversized list |
| `ManagerTheorems.CommandOk` | `src/Etapas/mng_request.c:229-278` | The parameter stage keeps the invariant and changes the settings only as asked |
| `ManagerRuns.IndexOverRuns` | `src/Etapas/mng_request.c:383-440` | Over all runs the byte behind the credentials is answered: indexes 2 to 9 with status 0 and the asked counter modulo 2^32, 0 with its sixteen bytes, 1 with the list, one above 13 with status 2, and 10 to 13 with the wait for parameters |
| `ManagerRuns.ListOverRuns` | `src/Etapas/mng_request.c:578-609` | Over all runs that start with users that can be listed, the reply to the list request decodes to exactly the names of the table as it then is if it fits, is empty if the names do not pass the check, and is an overrun in between |
| `ManagerRuns.ParametersOverRuns` | `src/Etapas/mng_request.c:490-534` | Over all runs a request is performed as soon as its bytes are complete: a user appended below 255 users, the first of a name removed, the method 2 for option 0 and 0 otherwise, the dissector switch set; the status is 3 iff a user is added to a full table, else 0 |
| `ManagerRuns.SendingOverRuns` | `src/Etapas/mng_request.c:312-341` | Over all runs the connection ends when its reply is sent in full, and goes on sending until then |
| `ManagerRuns.OpeningOverRuns` | `src/Etapas/hello.c:170-230` | The opening of a management client is answered with 1 and method 2 if offered, else 255 |
| `ManagerRuns.MethodOverRuns` | `src/Etapas/hello.c:254-299` | The selected method decides what follows |
| `ManagerRuns.CredentialsOverRuns` | `src/Etapas/authentication.c:122-164` | Credentials are checked against the administrators, by name and password |
| `ManagerRuns.VerdictOverRuns` | `src/Etapas/authentication.c:229-272` | The client is sent 1 and the result, and only a result of 0 leads to a request |
| `ProxyTheorems.CountersAgree` | `src/Etapas/connecting.c:115-122` | Over all runs concurrent is historic minus the relays that ended, is at least the number of relaying connections, and historic is at most the attempts |
| `ProxyTheorems.MaxConcurrentIsPeak` | `src/Etapas/connecting.c:119-122` | The reported maximum is the greatest number of concurrent connections over the whole run |
| `ProxyTheorems.OneReplyIffConnecting` | `src/Etapas/connecting.c:57-206` | Over all runs a connection in REQUEST_CONNECTING whose origin is being connected is answered with one reply, and one that failed from the start with two; the reply reports success iff the connection came about; the bytes of a reply are stated by `RunTheorems.ConnectOverRuns` |
| `ProxyTheorems.ConnectingIffWaits` | `src/Etapas/connecting.c:250-297` | Over all runs an event that takes a connection to REQUEST_CONNECTING leaves its origin registered iff connect is in progress on a descriptor that can be watched |
| `ProxyTheorems.RelayStartsClean` | `src/Etapas/request.c:262-303` | A relay begins with nothing waiting for the client, and for the origin exactly the last bytes received that nobody has consumed |
| `PassModule.PassIsRun` | `src/selector.c:449-481` | Every dispatching pass over a reachable proxy, in which write handlers receive the attachment looked up before the read handler ran, is a run of the proxy, event by event |
| `PassModule.SlotSurvives` | `src/selector.c:449-481` | After an event of a descriptor that is still registered, its slot has the handler and the attachment it had |
| `WorldInvariantModule.RunOk` | `src/socks5nio.c:253-302` | The invariant of the whole proxy holds after every run, and no run faults |
| `WorldInvariantModule.StepOk` | `src/socks5nio.c:203-302` | Every step that can happen keeps that invariant and does not fault |
| `WorldInvariantModule.FinishRetires` | `src/socks5nio.c:288-302` | Closing a sound connection unregisters exactly its descriptors, never aborts, and releases its record once |
| `WorldInvariantModule.ArmedIsReactable` | `src/stm.c:53-87` | A connection between events handles whatever the selector can deliver to it |
| `WorldInvariantModule.AcceptOk` | `src/socks5nio.c:203-243` | Accepting a connection, registered or refused, keeps the invariant |
| `WorldInvariantModule.NotifyOk` | `src/selector.c:483-506` | Delivering a finished resolution keeps the invariant |
| `RelayModule.Integrity` | `src/Etapas/copy.c:80-197` | For every interleaving of partial reads and writes, ends of stream and errors: initial bytes and bytes received are bytes sent and bytes still held, in order |
| `RelayModule.OutputIsPrefix` | `src/Etapas/copy.c:147-197` | What reaches a peer is always a prefix of what was meant for it, pipelined bytes first |
| `RelayModule.DeliveredIffDrained` | `src/Etapas/copy.c:100-111` | After a direction closes, everything received on it is delivered in the end if and only if its buffer was empty at that moment |
| `RelayModule.ReceivedBytesCanBeLost` | `src/Etapas/copy.c:100-111` | A byte received and followed by the end of the stream stays in the buffer and is not sent |
| `RelayModule.ClosedIsFrozen` | `src/Etapas/copy.c:100-111` | A closed direction never carries, accepts or loses another byte |
| `RelayModule.InterestMirrorsOccupancy` | `src/Etapas/copy.c:8-35` | In every reachable relay a descriptor is watched for reading iff its READ flag is on and its buffer has room, for writing iff its WRITE flag is on and there are bytes |
| `RelayModule.NoStuckDirection` | `src/Etapas/copy.c:8-35` | Reading on one side goes with writing on the other, and a direction is open iff one of its descriptors is armed |
| `RelayModule.DoneExactlyWhenClosed` | `src/Etapas/copy.c:134-141` | A handler returns DONE iff it leaves both directions closed, iff it leaves nothing armed |
| `RelayModule.BeginInv` | `src/Etapas/copy.c:37-58` | The relay that `copy_init` sets up satisfies the relay's invariant, with both directions open and the two buffers as they were |
| `RelayModule.OpenUntilClosed` | `src/Etapas/copy.c:95-111` | A direction is open until its stream ends or a send on it fails, whatever happens to the other direction |
| `CopyStageModule.CopyStage.ComputeInterests` | `src/Etapas/copy.c:8-35` | The selector ends up with the interests that flags and buffers call for; it refuses only an unregistered descriptor |
| `CopyStageModule.CopyStage.CopyRead` | `src/Etapas/copy.c:80-145` | Buffers, flags, selector, metrics and dissector are afterwards those of the relay's read step; DONE as specified; no abort |
| `CopyStageModule.CopyStage.CopyWrite` | `src/Etapas/copy.c:147-197` | The same for the write step |
| `CopyStageModule.CopyStage.constructor` | `src/Etapas/copy.c:37-58` | Entering the state yields the relay's initial value, in the selector too |
| `CopyStageModule.TransferMetrics.CountRead` | `src/Etapas/copy.c:113-126` | Historic bytes grow by the bytes read and the average per read folds in the new sample |
| `CopyStageModule.TransferMetrics.CountWrite` | `src/Etapas/copy.c:169-182` | Historic bytes grow by the bytes written and the average per write folds in the new sample |
| `MetricsModule.AverageBounds` | `src/Etapas/copy.c:118-126` | With k samples of sum S the stored average A has k*A <= S <= k*A + k*(k-1)/2 |
| `MetricsModule.AverageWithinSamples` | `src/Etapas/copy.c:118-126` | The stored average lies between the smallest and the largest sample |
| `MetricsModule.SlackIsAttained` | `src/Etapas/copy.c:118-126` | For every k some samples lose exactly k*(k-1)/2, so the bound cannot be improved |
| `MetricsModule.RunningAverage.Record` | `src/Etapas/copy.c:118-126` | The in-place update stores the rounded average of all samples so far |
| `Buffers.Fifo` | `src/buffer.c:49-103` | Over any run of writes, reads and compactions, what came out followed by what is left is what went in |
| `Buffers.NeverWedged` | `src/buffer.c:57-68` | After any run a buffer without room has bytes and one without bytes has all its room |
| `Buffers.Buffer.Fill` | `src/buffer.c:49-55` | Received bytes are appended behind the unread ones |
| `Buffers.Buffer.ReadWindow` | `src/buffer.c:42-47` | The readable window has the length of the unread bytes |
| `Buffers.Buffer.ReadAdvance` | `src/buffer.c:57-68` | A count of bytes is dropped from the front, and an emptied buffer has all its room again; a negative count changes nothing |
| `Buffers.Buffer.ReadByte` | `src/buffer.c:70-80` | The first unread byte is returned and dropped; an empty buffer gives zero and is unchanged |
| `Buffers.Buffer.WriteByte` | `src/buffer.c:82-88` | One byte is appended if there is room |
| `Buffers.Buffer.CompactNow` | `src/buffer.c:90-103` | Compaction moves the unread bytes to the front and changes nothing else |
| `SelectorTable.DispatchIsSafe` | `src/selector.c:449-481` | Whatever handlers register, unregister and re-arm during a pass, every dispatch is to a ready slot registered and interested at that moment, with its attachment, in descriptor order and never twice |
| `SelectorTable.DispatchIsComplete` | `src/selector.c:449-481` | No ready descriptor in range that is registered and interested when its turn comes is skipped |
| `SelectorModule.NextCapacity` | `src/selector.c:170-186` | The capacity is one more than the least power of two above n, capped at FD_SETSIZE, and exceeds n whenever n is within range |
| `SelectorModule.Selector.EnsureCapacity` | `src/selector.c:243-285` | On success n has a slot; existing slots are kept and new ones unused; each failure leaves the array alone |
| `SelectorModule.Selector.constructor` | `src/selector.c:287-304` | A new selector is empty, valid, and has a slot for every element asked for |
| `SelectorModule.Selector.ItemsMaxFd` | `src/selector.c:208-218` | The result is the greatest used descriptor, or 0 |
| `SelectorModule.Selector.UpdateFdSets` | `src/selector.c:222-236` | The master sets change at one descriptor, to its interest |
| `SelectorModule.Selector.Register` | `src/selector.c:334-375` | The registration map changes as specified or the error of the map is returned; slots, master sets and maximum stay in agreement; it reports exactly when the original reads past the slot array |
| `SelectorModule.Selector.Unregister` | `src/selector.c:377-411` | The same for unregistering, with the attachment that the close handler receives |
| `SelectorModule.Selector.SetInterest` | `src/selector.c:413-430` | The same for a change of interest |
| `SelectorModule.Selector.HandleIteration` | `src/selector.c:449-481` | The loop over the slots performs the specified pass, handlers included |
| `SelectorModule.Selector.NotifyBlock` | `src/selector.c:508-532` | A finished job is put at the head of the list |
| `SelectorModule.Selector.HandleBlockNotifications` | `src/selector.c:483-506` | The list is emptied; every job of it is taken in turn, and delivered iff its descriptor is registered in the table that the handlers called so far have left; the table is afterwards the one that all the handlers called have left |
| `SelectorModule.DrainInTurn` | `src/selector.c:489-503` | For each job of the list, with n the number delivered before it: it is the n-th delivered iff its descriptor is registered in the table that n handlers have left; the final table is that after all deliveries |
| `SelectorModule.DrainIsUnique` | `src/selector.c:489-503` | No other sequence of deliveries takes the list in turn |
| `DrainModule.DrainIsRun` | `src/selector.c:483-506` | Draining the list of a reachable proxy, which is emptied only at the end, is a run of one notification a job; every job reaches its descriptor, in order, and the list is empty afterwards |
| `SelectorModule.RegisterNeedsRoom` | `src/selector.c:343-353` | After the capacity step a valid descriptor has a slot iff it is not exactly the number of slots |
| `SelectorModule.OnlyValidRegistered` | `src/selector.c:334-430` | Over any sequence of calls only descriptors below FD_SETSIZE are registered |
| `SelectorTable.CallIsLocal` | `src/selector.c:335-432` | Each call succeeds, or names the reason, exactly by the validity and the use of its descriptor, and changes no other registration |
| `SelectorTable.CallsAreLocal` | `src/selector.c:335-432` | Over any sequence of calls what becomes of a descriptor depends on the calls for it alone |
| `HandOffModule.NoLostWakeUp` | `src/selector.c:483-574` | Whenever the selector sleeps over a non-empty list, a signal is pending or a thread has linked its job and not yet signalled |
| `HandOffModule.NeverStuckAsleep` | `src/selector.c:534-574` | Once every thread has signalled, a selector asleep over a job can be interrupted |
| `HandOffModule.DeliveredAtMostOnce` | `src/selector.c:483-532` | No job is delivered twice, before it is linked, or while it still waits |
| `HandOffModule.DrainIsComplete` | `src/selector.c:483-506` | When the list has been drained, exactly the jobs linked so far have been delivered |
| `HandOffModule.InvHolds` | `src/selector.c:73-90` | Mutual exclusion, exactly-once and no-lost-signal hold in every state of every interleaving |
| `StateMachineModule.TablesAreWellFormed` | `src/mng_nio.c:17-70` | Both state tables are indexed by their own state numbers and start before their last state |
| `StateMachineModule.HooksArePaired` | `src/stm.c:36-50` | In every walk an arrival hook is followed by the departure hook of the same state, and a departure hook comes right after its own arrival hook |
| `StateMachineModule.HandlersOf` | `src/socks5nio.c:26-90` | Which events each state of a proxied and of a management connection has a handler for |
| `StateMachineModule.StateMachine.Init` | `src/stm.c:10-24` | It aborts exactly on tables that are not correlative or start at their last state |
| `StateMachineModule.StateMachine.HandleFirst` | `src/stm.c:26-34` | The first event enters the initial state, running its arrival hook; later ones change nothing |
| `StateMachineModule.StateMachine.Jump` | `src/stm.c:36-50` | A jump aborts iff the state does not exist, and extends the walk, with both hooks in order, iff it changes state |
| `StateMachineModule.StateMachine.Handle` | `src/stm.c:53-87` | Handling an event aborts iff the state has no handler for it or the handler names no state |
| `RequestParserModule.DoneIffRequest` | `src/Etapas/request_parser.c:45-253` | The parser is done on a stream iff the stream starts with an accepted CONNECT request |
| `RequestParserModule.DoneIffRfcRequest` | `src/Etapas/request_parser.c:183-192` | The parser agrees with RFC 1928 on a stream (IPv4, IPv6 and 1 to 254 byte names) iff the stream is not a CONNECT request of at least eight bytes for a name of length zero |
| `RequestParserModule.ZeroLengthNameIsAccepted` | `src/Etapas/request_parser.c:183-221` | With a zero-length name the parser is done although no such request was sent |
| `RequestParserModule.DoneReencodes` | `src/Etapas/request_parser.c:45-115` | The fields of a finished parser encode back to the bytes it read |
| `RequestParserModule.EncodedIsDone` | `src/Etapas/request_parser.c:45-115` | Reading an encoded request finishes with exactly its fields |
| `RequestParserModule.EncodingIsUnique` | `src/Etapas/request_parser.c:45-253` | A stream starts with at most one accepted request |
| `RequestParserModule.FinalStatesAbsorb` | `src/Etapas/request_parser.c:93-109` | Done and error states are never left |
| `RequestParserModule.RequestTakenExactly` | `src/Etapas/request.c:142-161` | Under every chunking the stage takes exactly the request's bytes and leaves what is pipelined behind |
| `RequestParserModule.RequestParser.FeedByte` | `src/Etapas/request_parser.c:45-115` | The parser object, with its address, name and port arrays, makes the specified step |
| `RequestParserModule.RequestParser.ConsumeFrom` | `src/Etapas/request.c:142-161` | The consuming loop advances buffer and parser as specified |
| `Feeding.ChunkingIrrelevant` | `src/Etapas/request.c:142-161` | For any parser, feeding chunk by chunk until it stops equals feeding their concatenation |
| `Feeding.ConsumeConcat` | `src/myParser.c:128-142` | Splitting the input anywhere changes neither the state reached nor the bytes taken |
| `HelloParserModule.DoneIffOpens` | `src/Etapas/hello.c:14-86` | The parser is done iff the stream starts with an opening message of its version, and then it has selected the wanted method iff the client offered it, otherwise 0xFF |
| `HelloParserModule.MessageTakenExactly` | `src/Etapas/hello.c:89-103` | Under every chunking exactly the opening message is taken |
| `HelloParserModule.HelloParser.ConsumeFrom` | `src/Etapas/hello.c:89-103` | The consuming loop advances buffer and parser as specified |
| `HelloParserModule.HelloParser.FeedByte` | `src/Etapas/hello.c:14-64` | The parser object makes the specified step |
| `FieldParserModule.DoneIffMessage` | `src/myParser.c:11-126` | For every layout of fixed and length-prefixed fields, the engine finishes iff the stream starts with an accepted message of that layout |
| `FieldParserModule.MessageTakenExactly` | `src/myParser.c:128-142` | Under every chunking exactly the message is taken and every field is stored NUL-terminated, zero lengths included |
| `FieldParserModule.FinishedCredentials` | `src/Etapas/authentication.c:59-111` | A finished credentials parser holds the two strings that the bytes it took encode (RFC 1929 section 2) |
| `FieldParserModule.CredentialsTaken` | `src/Etapas/authentication.c:59-111` | An encoded pair finishes the five-step layout after 3 + len(u) + len(p) bytes with both strings NUL-terminated |
| `FieldParserModule.CredentialsSetIffVersion` | `src/Etapas/authentication.c:147-162` | When the credentials parser has stopped, the two strings that auth_process would look up are set iff the first byte is the right version |
| `FieldParserModule.IndexIsChecked` | `src/Etapas/mng_request.c:33-98` | The index layout takes one byte and finishes iff it names a request, otherwise it ends in its error |
| `FieldParserModule.FieldParser.FeedByte` | `src/myParser.c:11-126` | The parser object makes the specified step, updating its array of steps in place |
| `FieldParserModule.FieldParser.ConsumeFrom` | `src/myParser.c:128-142` | The consuming loop advances buffer and parser as specified |
| `DissectorModule.ReportIsLogin` | `src/password_dissector/dissec_parser.c:75-167` | A pair is reported only when the stream has just ended with a whole login for it, with ASCII texts of at most 254 bytes |
| `DissectorModule.LoginIsReported` | `src/password_dissector/dissec_parser.c:34-61` | After any stream that leaves it searching, a login that follows is reported |
| `DissectorModule.SearchIsExact` | `src/password_dissector/dissec_parser.c:187-201` | While searching, the matched count is the longest suffix since the search began that is a prefix of the word, and the word has not occurred: the restart rule misses nothing |
| `DissectorModule.ChunksIrrelevant` | `src/password_dissector/dissec_parser.c:57-61` | Only the concatenation of the chunks matters |
| `DissectorModule.DissecParser.CheckSize` | `src/password_dissector/dissec_parser.c:65-73` | A full text array is replaced by a longer one with the same contents |
| `DissectorModule.DissecParser.FeedByte` | `src/password_dissector/dissec_parser.c:34-55` | The object with its growing arrays makes the specified step |
| `DissectorModule.DissecParser.ConsumeAll` | `src/password_dissector/dissec_parser.c:57-61` | A chunk is fed byte by byte |
| `UsersModule.UserTable.AddUser` | `src/Etapas/mng_request.c:446-455` | The pair is appended unless 255 users exist |
| `UsersModule.UserTable.DeleteUser` | `src/Etapas/mng_request.c:457-474` | One in-place pass removes exactly the first user of that name |
| `UsersModule.UserTable.CheckCredentials` | `src/Etapas/authentication.c:287-297` | Access is granted iff the pair is in the table, with its first index |
| `UsersModule.DeleteRemovesOne` | `src/Etapas/mng_request.c:457-474` | Deleting removes one entry, the first of that name, and keeps the order of the rest; an absent name changes nothing |
| `UsersModule.DeleteUndoesAdd` | `src/Etapas/mng_request.c:446-474` | Deleting a name that was new undoes adding it |
| `UsersModule.AddGrants` | `src/Etapas/mng_request.c:446-455` | Adding grants the pair iff it was granted already or there is room |
| `UsersModule.DeleteRevokes` | `src/Etapas/mng_request.c:457-474` | After deleting its name a pair is granted iff it was, and another entry of that name came first or the pair is there twice |
| `UsersModule.DeleteSpares` | `src/Etapas/mng_request.c:457-474` | Other names keep all their entries |
| `UsersModule.ChangesKeepTable` | `src/Etapas/mng_request.c:446-474` | Over any run of changes the table has at most 255 NUL-free entries |
| `UsersModule.GrantSurvives` | `src/Etapas/mng_request.c:446-474` | Over any run a pair stays granted while the deletions of its name are fewer than its entries |
| `ManagementModule.MetricRoundTrip` | `src/client/clientUtils.c:217-223` | The client reads back every metric modulo 2^32 |
| `ManagementModule.MarshalMetric` | `src/Etapas/mng_request.c:538-550` | A metric reply is written iff it fits |
| `ManagementModule.ListRoundTrip` | `src/client/clientUtils.c:203-215` | Decoding a whole list reply gives exactly the table's names in order, for names of at most 255 bytes |
| `ManagementModule.ListedIffRead` | `src/client/clientUtils.c:224-252` | The client, which reads at most 500 bytes, gets exactly the table's names iff the reply is no longer than that |
| `ManagementModule.ListReplyFits` | `src/Etapas/mng_request.c:578-609` | The size check passes iff names plus two bytes fit; the reply fits iff there is also room for one length byte a user |
| `ManagementModule.ListReplyCanOverrun` | `src/Etapas/mng_request.c:578-609` | Nine additions of names of at most 255 bytes to an empty table make the check pass for a reply that does not fit the empty 2048-byte buffer |
| `ManagementModule.MarshalList` | `src/Etapas/mng_request.c:578-609` | The list reply is written iff the check passes and it fits; it reports exactly when the original writes past the buffer |
| `ManagementModule.SendCredentials` | `src/client/clientUtils.c:47-60` | The bytes sent are the pair with each length in one byte; it reports exactly when the message and its final NUL do not fit the 510-byte array |
| `ManagementModule.SentIsMessage` | `src/client/clientUtils.c:47-60` | With lengths of at most 255 those bytes are the message of RFC 1929 |
| `ManagementModule.AddUserMessage` | `src/client/clientUtils.c:73-90` | The bytes behind the index are the encoding of the pair |
| `ManagementModule.DeleteUserMessage` | `src/client/clientUtils.c:92-102` | The bytes behind the index are the encoding of the name |
| `ManagementModule.CredentialsRoundTrip` | `src/Etapas/authentication.c:59-111` | Under every chunking the server looks up exactly the pair that the client sent |
| `ManagementModule.AddUserRoundTrip` | `src/Etapas/mng_request.c:623-686` | Under every chunking the server adds exactly the pair that the client sent |
| `ManagementModule.DeleteUserRoundTrip` | `src/Etapas/mng_request.c:688-733` | Under every chunking the server deletes exactly the name that the client sent |
| `ConnectionInvariantModule.WiredIsReady` | `src/socks5nio.c:26-90` | The interests kept for each state are ones the state handles |
| `ConnectionInvariantModule.HelloReadOk` | `src/Etapas/hello.c:170-230` | Reading the opening message keeps the connection sound, wired and justified by the bytes received |
| `ConnectionInvariantModule.HelloWriteOk` | `src/Etapas/hello.c:254-299` | The same for the reply: later stages are entered only with an offered method |
| `ConnectionInvariantModule.AuthReadOk` | `src/Etapas/authentication.c:122-164` | The same for the credentials: the pair checked is the one the client's bytes encode |
| `ConnectionInvariantModule.AuthWriteOk` | `src/Etapas/authentication.c:229-272` | The same for the reply: the request stage is entered only after a granted check |
| `ConnectionInvariantModule.RequestReadOk` | `src/Etapas/request.c:98-260` | The same for the request, up to the start of connecting |
| `ConnectionInvariantModule.ResolvDoneOk` | `src/Etapas/resolv.c:65-96` | The same for a finished resolution |
| `ConnectionInvariantModule.ConnectingInitOk` | `src/Etapas/connecting.c:18-55` | The same for entering the connecting state |
| `ConnectionInvariantModule.ConnectingWriteOk` | `src/Etapas/connecting.c:57-206` | The same for the outcome of a connection |
| `ConnectionInvariantModule.RequestWriteOk` | `src/Etapas/request.c:262-303` | The same for the reply, up to the start of the relay |
| `ConnectionInvariantModule.CopyReadOk` | `src/Etapas/copy.c:80-145` | The same for reading in the relay |
| `ConnectionInvariantModule.CopyWriteOk` | `src/Etapas/copy.c:147-197` | The same for writing in the relay |
| `ConnectionInvariantModule.ReadyIffNotImmediate` | `src/Etapas/connecting.c:298-316` | Entering the connecting state leaves every armed descriptor with a handler iff connecting did not succeed at once on a descriptor that can be registered |
| `ConnectionInvariantModule.AnsweredOnceOrTwice` | `src/Etapas/connecting.c:57-206` | What the write handler leaves in the write buffer of a sound connecting connection: one reply if its origin is registered, otherwise two |
| `StageTheorems.OpeningIsAnswered` | `src/Etapas/hello.c:170-230` | The stage function answers a complete opening with the version and the wanted method or 255, and refuses another version |
| `StageTheorems.CredentialsAreChecked` | `src/Etapas/authentication.c:285-342` | The recorded result is 0 iff an entry has the pair that the client's bytes encode, and the index is the first such entry's |
| `StageTheorems.CredentialsAreAnswered` | `src/Etapas/authentication.c:229-272` | The two bytes 1 and the result are offered on every call, and 0 alone leads on |
| `StageTheorems.RequestIsServed` | `src/Etapas/request.c:98-260` | Where a request leads, by whether the client's bytes start with one and by its address type |
| `StageTheorems.ResolutionDecides` | `src/Etapas/resolv.c:65-96` | A name that resolves leads to connecting; one that does not, to the ten bytes of a general failure |
| `StageTheorems.FailureIsReported` | `src/Etapas/connecting.c:209-316` | A connection that fails from the start leaves a reply of ten literal bytes with the code for its error number |
| `StageTheorems.OutcomeIsReported` | `src/Etapas/connecting.c:57-206` | The reply says success iff the socket has no error, and otherwise the code for the error |
| `SessionModule.Session.HelloRead` | `src/Etapas/hello.c:170-230` | The handler, over the real buffers, parser and selector, does what the stage function says |
| `SessionModule.Session.HelloWrite` | `src/Etapas/hello.c:254-299` | The same for the reply to the opening message |
| `SessionModule.Session.HandleFirst` | `src/stm.c:26-34` | The first event enters the initial state and prepares the hello parser for the proxy or the management server |
| `SessionModule.Session.HelloReadInit` | `src/Etapas/hello.c:130-156` | A fresh parser that wants the method the stage function configures, the one `RunTheorems.MethodIsFixed` pins over runs |
| `SessionModule.Session.Jump` | `src/stm.c:36-50` | The jump with the arrival hook of any state before the relay, over the real objects |
| `SessionModule.Session.AuthReadInit` | `src/Etapas/authentication.c:35-114` | A fresh parser for the five fields |
| `SessionModule.Session.RequestInit` | `src/Etapas/request.c:42-83` | A fresh request parser |
| `SessionModule.Session.AuthRead` | `src/Etapas/authentication.c:122-164` | The same for the credentials, against the table object |
| `SessionModule.Session.AuthProcess` | `src/Etapas/authentication.c:322-342` | The recorded result, and for the proxy the user index, are those of the pair in the parser, against the users or the administrators |
| `SessionModule.Session.AuthWrite` | `src/Etapas/authentication.c:229-272` | The same for the authentication reply, appended on every call |
| `SessionModule.Session.RequestRead` | `src/Etapas/request.c:98-260` | The same for the request |
| `SessionModule.Session.ErrorToClient` | `src/Etapas/request.c:31-41` | The reply is written if it fits, the client is watched for writing and the origin is silenced; its ten bytes and its code are stated by `StageTheorems.FailureIsReported` and `OutcomeIsReported` |
| `SessionModule.Session.ResolvDone` | `src/Etapas/resolv.c:65-96` | The same for a finished resolution, whose two outcomes are stated by `StageTheorems.ResolutionDecides` |
| `SessionModule.Session.ConnectingInit` | `src/Etapas/connecting.c:18-55` | The same for entering the connecting state, whatever the system calls return |
| `SessionModule.Session.Connect` | `src/Etapas/connecting.c:277-316` | The origin's descriptor is registered with the interests given, or the failure to register it is reported |
| `SessionModule.Session.ConnectingWrite` | `src/Etapas/connecting.c:57-206` | The same for the outcome of a connection |
| `SessionModule.Session.RequestWrite` | `src/Etapas/request.c:262-303` | The same for the reply to the request |
| `ManagerSessionModule.ManagerSession.ReadIndex` | `src/Etapas/mng_request.c:102-169` | The handler, over the real buffers, parser and selector, does what the index stage function says, and reports a list overrun |
| `ManagerSessionModule.ManagerSession.ProcessIndex` | `src/Etapas/mng_request.c:383-440` | The same for the reply to each index, whose bytes are stated by `ManagerRuns.IndexOverRuns` |
| `ManagerSessionModule.ManagerSession.ReadRequest` | `src/Etapas/mng_request.c:229-278` | The same for the parameters, with the user table and settings changed in place |
| `ManagerSessionModule.Configuration.Process` | `src/Etapas/mng_request.c:490-534` | The settings and the status of the reply are those of the request |
| `ManagerSessionModule.ManagerSession.WriteReply` | `src/Etapas/mng_request.c:312-341` | The same for sending the reply |
| `ServerModule.Server.NewRecord` | `src/socks5nio.c:107-156` | A record is taken from the pool if there is one and initialised |
| `ServerModule.Server.Destroy` | `src/socks5nio.c:171-187` | The reference count is lowered, or the record pooled or freed |
| `ServerModule.Server.PassiveAccept` | `src/socks5nio.c:203-243` | The accepted client is registered with a record, or the record is given back |
| `ServerModule.Server.CloseFd` | `src/socks5nio.c:283-302` | Unregistering one descriptor runs its close handler |
| `ServerModule.Server.Done` | `src/socks5nio.c:288-302` | The loop closes both descriptors of the record as specified, stopping at an abort |

## Left out

- System calls are not modelled; what they return is a parameter of each step, within the bounds the code relies on.
- ProxyTheorems.NeverFaults: runs exclude a connect that succeeds at once, after which the code aborts; `ImmediateFaults` says so for every reachable state. The same holds of `WorldInvariantModule.RunOk`, `StepOk` and `NotifyOk`, and of `RequestReadOk`, `ResolvDoneOk` and `ConnectingInitOk` in `ConnectionInvariantModule`.
- ConnectionInvariantModule.AuthReadOk: a bad sub-negotiation version leads to ERROR without `auth_process` first comparing strings that are not set; `CredentialsSetIffVersion` says when they are not. The same holds of `SessionModule.Session.AuthRead`.
- ConnectionInvariantModule.ConnectingWriteOk: no second resolved address is tried, which would register a descriptor already in use; a name resolves to at most one. The same holds of `SessionModule.Session.ConnectingWrite`.
- Allocation failure inside the stages, and the memory of the parsers that arrival hooks allocate and departure hooks free.
- The store in front of a zero-length name's array (`src/Etapas/request_parser.c:183-192`): that cell does not exist in the model.
- In `WorldModule` and `ServerModule` connection records are values in a map keyed by address; `SessionModule` has the same record as an object, for one connection, up to the relay, and `CopyStageModule` the relay's part of it.
- The resolver hand-off is a state machine of its own; in `WorldModule` finishing a resolution and delivering it are single steps.
- The management server is a state machine of its own, whose changes the proxy's runs contain (`ChangesAreProxyRuns`); its connections are known by descriptor, because its record pool and its accepting handler repeat the proxy's without an origin.
- ManagerRuns.ListOverRuns: the server is taken to be started with at most 255 users, whose names are C strings of at most 255 bytes; a longer name from the command line does not fit its length byte.
- The metrics that a management reply reads are a parameter of its event, one value for each of them, and not those of a `WorldModule` that runs beside it.
- In `WorldModule` the password dissector is always on; `CopyStage` has the switch.
- Wrap-around of the 64-bit metrics; narrowing a metric to 32 bits in its reply is modelled.
- The `single_read` branch of `src/myParser.c`, which no layout uses.
- Command line, credentials file, socket creation, log lines, the printing of a dissected login, timestamps and addresses.
- The client's prompts and main loop; only its encoders and decoders are modelled.
