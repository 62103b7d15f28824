# Hydra client mirror, modelled in Dafny

This project models the core of a TypeScript client for a Hydra head node. The client
receives decoded server records one at a time. Each record goes to a handler, picked by
its tag, and the handler updates a `NodeState` object. That object mirrors the head:

- the lifecycle phase;
- the connected peers;
- the parties;
- the head id and the node's own key;
- what each party has committed;
- the head's unspent outputs;
- the contestation deadline.

While the client is still replaying history (`isLoadingHistory`), it updates the mirror
but calls no listener. The first `Greetings` record clears the flag. From that record on,
and including it, every handled record goes to every registered listener in list order.
The client also keeps an ordered listener list (`onMessage`, `offMessage`, `close`). It can
send commands only when it has a connection.

Files:

- `Protocol.dfy`: the decoded records. `Payload` has one variant per server record
  interface, plus `Unknown(tag)` for any other tag. A `DecodedResponse` is a record
  whose payload is `Unknown` only for a tag outside the eighteen known ones. Also the
  client commands.
- `HeadMirror.dfy`: the node state as a value (`Mirror`), one function per handler, the
  dispatch `Apply`, and lemmas on the effect of each record.
- `NodeState.dfy`: the class `NodeState`. Its fields are updated in place. `View()` gives
  them as a `Mirror`.
- `Listeners.dfy`: the fan-out of one record (`Broadcast`) and the removal filter of
  `offMessage` (`Without`).
- `ClientSpec.dfy`: the whole client as a value (`Session`). It defines one step
  (`Step`), a stream of records (`Run`), and the registry, connection and send
  operations. The replay gate is proved by induction over streams.
- `HydraClient.dfy`: the class `HydraClient`. Its public operations are proved against
  the matching `ClientSpec` functions. `Dispatch` and the `Handle*` methods are proved
  against `HeadMirror.Apply` and the `HeadMirror.On*` functions. The fan-out
  (`NotifyListeners`) is a `for` loop that appends to a ghost log of listener calls. It
  is proved against `Listeners.Broadcast`.

The model follows the code as written. In particular:

- `HeadIsInitializing` does not clear the head outputs.
- `HeadIsFinalized` ignores the outputs it carries.
- A phase change is never validated: any phase can follow any phase.
- On an unknown tag, the client throws. Nothing in the client catches the error or
  closes the socket. The model lets the stream continue: `Run` skips that record and
  handles the next.
- Nothing keeps the node's own key out of `peers`.

## Model

| member | source | states |
|---|---|---|
| Protocol.TagDecidesKnown | src/client/HydraClient.ts:90-147 | a well-tagged record is dispatched exactly when its tag is one of the eighteen handled tags |
| Protocol.TagNamesVariant | src/client/HydraClient.ts:90-144 | each of the eighteen tag strings is carried by exactly the variant whose handler the switch runs for it |
| Protocol.TagIdentifiesVariant | src/client/HydraClient.ts:90-147 | equal tags mean the same variant, so the string switch and the variant match agree |
| HeadMirror.InitialIsEmpty | src/client/NodeState.ts:6-13 | a fresh node state is Idle, with no peers, parties, commits or head outputs, and no head id, node id or deadline |
| HeadMirror.SixKinds | src/client/NodeState.ts:3 | every phase is one of the six kinds, and there are exactly six |
| HeadMirror.Transition | src/client/NodeState.ts:16-18 | the new phase is the one asked for, and every other field is unchanged |
| HeadMirror.TransitionTotalAndIdempotent | src/client/NodeState.ts:16-18 | every phase reaches every phase, and repeating a transition gives the state of a single one |
| HeadMirror.MergeUtxos | src/client/HydraClient.ts:207-210 | the merged keys are the union; the update's entry wins on a shared key, and the base keeps the others |
| HeadMirror.Apply | src/client/HydraClient.ts:90-147 | a record has a handler exactly when its tag is not unknown |
| HeadMirror.DispatchFollowsTag | src/client/HydraClient.ts:90-147 | a decoded record reaches a handler exactly when its tag string is one of the eighteen cases of the switch |
| HeadMirror.HeadIdInvPreserved | src/client/HydraClient.ts:171-183 | a fresh node state has no head id while Idle, and every handler keeps "Idle implies no head id" |
| HeadMirror.GreetingsSetsOnlyNodeId | src/client/HydraClient.ts:157-161 | Greetings sets nodeId to the sender's key and nothing else, so a second Greetings only overwrites nodeId |
| HeadMirror.PeerSetSemantics | src/client/HydraClient.ts:163-169 | connect adds and disconnect removes the peer; a duplicate connect or an absent disconnect is a no-op; no other field changes |
| HeadMirror.CommittedMerges | src/client/HydraClient.ts:201-211 | the party's entry (empty if absent) is merged key-wise with the event winning; other parties and fields are unchanged |
| HeadMirror.CommittedTwice | src/client/HydraClient.ts:201-211 | two commits by one party keep all earlier outputs; disjoint references accumulate and the later commit wins on a shared one |
| HeadMirror.InitializingResets | src/client/HydraClient.ts:171-176 | from any phase: Initializing, no commits, head id and parties from the record; head outputs and other fields kept |
| HeadMirror.AbortedClears | src/client/HydraClient.ts:178-183 | from any phase: Idle, with no parties, no commits and no head id; other fields kept |
| HeadMirror.SnapshotReplacesHeadUtxos | src/client/HydraClient.ts:185-187 | a confirmed snapshot replaces the head outputs wholesale and changes nothing else |
| HeadMirror.PhaseAndOutputEffects | src/client/HydraClient.ts:213-234 | HeadIsClosed sets the deadline and Closed; HeadIsOpen replaces the outputs and sets Open; ReadyToFanout clears the deadline and sets FanoutPossible; HeadIsFinalized only sets Final; GetUTxOResponse replaces the outputs and keeps the phase |
| HeadMirror.ErrorRecordsLeaveMirror | src/client/HydraClient.ts:189-199 | PostTxOnChainFailed, InvalidInput and CommandFailed leave the node state unchanged |
| HeadMirror.InformationalRecordsLeaveMirror | src/client/HydraClient.ts:236-246 | HeadIsContested, TxValid and TxInvalid leave the node state unchanged |
| HeadMirror.PhaseMovesOnlyOnPhaseRecords | src/client/HydraClient.ts:157-246 | only the six phase records can change the phase |
| NodeStates.NodeState.constructor | src/client/NodeState.ts:6-13 | the fields start as the initial mirror |
| NodeStates.NodeState.Transition | src/client/NodeState.ts:16-18 | the phase is overwritten in place and no other field changes |
| Listeners.Broadcast | src/client/HydraClient.ts:150-152 | one call per list entry, in list order, each with the record |
| Listeners.Without | src/client/HydraClient.ts:56-58 | the result holds exactly the entries other than the callback, and is no longer than the list |
| Listeners.WithoutCounts | src/client/HydraClient.ts:56-58 | every occurrence of the callback goes, and every other callback keeps its number of occurrences |
| Listeners.WithoutDistributes | src/client/HydraClient.ts:56-58 | removal works piecewise along the list, so the survivors keep their order |
| Listeners.WithoutAbsentAndIdempotent | src/client/HydraClient.ts:56-58 | removing an absent callback is a no-op, and removing twice is the same as removing once |
| ClientSpec.Step | src/client/HydraClient.ts:87-155 | fails exactly on an unknown tag, with that tag; otherwise it leaves the listeners, connection, launch flag and outbox alone |
| ClientSpec.UnknownTagChangesNothing | src/client/HydraClient.ts:145-153 | an unknown tag fails before the fan-out: the flag, the state and the log are unchanged |
| ClientSpec.ReplayedRecordIsSilent | src/client/HydraClient.ts:149-153 | while replaying, a non-Greetings record updates the state and notifies nobody |
| ClientSpec.LiveRecordReachesEveryListener | src/client/HydraClient.ts:149-153 | when live, or on Greetings, a handled record is logged once per listener in list order, after the earlier log |
| ClientSpec.GreetingsGoesLive | src/client/HydraClient.ts:157-161 | Greetings clears the flag and is itself fanned out to every listener |
| ClientSpec.RunFrame | src/client/HydraClient.ts:87-155 | a stream of records leaves the listeners, connection and outbox alone; the state is the handlers' fold over the stream |
| ClientSpec.HeadIdInvAlongStream | src/client/HydraClient.ts:171-183 | over any stream of records, an idle head never has a head id: only HeadIsInitializing sets it, together with Initializing, and HeadIsAborted clears it on the way to Idle |
| ClientSpec.LoadingOnlyFalls | src/client/HydraClient.ts:157-161 | after a stream the client still replays exactly when it replayed before and the stream held no Greetings |
| ClientSpec.ReplayIsSilent | src/client/HydraClient.ts:149-153 | a replayed history without Greetings notifies nobody |
| ClientSpec.LiveDeliveryInOrder | src/client/HydraClient.ts:149-153 | a live client logs each handled record, in arrival order, to each listener, in list order |
| ClientSpec.RunSplits | src/client/HydraClient.ts:87-155 | records are handled one after another: a stream runs as its first part, then its second |
| ClientSpec.ReplayThenLive | src/client/HydraClient.ts:149-161 | nothing is notified before the first Greetings; from it on, itself included, every handled record reaches every listener in order |
| ClientSpec.OnMessage | src/client/HydraClient.ts:52-54 | the callback is appended at the end, duplicates kept; nothing else changes |
| ClientSpec.OffMessage | src/client/HydraClient.ts:56-58 | no occurrence of the callback remains; every other callback keeps its count; nothing else changes |
| ClientSpec.Close | src/client/HydraClient.ts:60-64 | no connection and no listeners afterwards; the node state and the flag are kept |
| ClientSpec.Send | src/client/HydraClient.ts:66-72 | fails with NotConnected exactly when there is no connection; otherwise the command goes out on that connection |
| ClientSpec.Launch | src/client/HydraClient.ts:24-29 | only the first launch starts; afterwards the client is launched and nothing else changes |
| ClientSpec.Opened | src/client/HydraClient.ts:38-39 | the opened socket becomes the connection |
| ClientSpec.RegistryLeavesState | src/client/HydraClient.ts:52-64 | registering or removing a listener leaves the node state and the flag alone; closing twice is closing once |
| ClientSpec.ClosedClientNotifiesNobody | src/client/HydraClient.ts:60-64 | after close no record notifies anyone, yet the node state still follows the records |
| ClientSpec.OpenScenario | src/client/HydraClient.ts:87-234 | replayed initialisation, Greetings, subscribe, commit, open: the head is Open on the opening's outputs, and the listener saw exactly [commit, open] |
| Client.HydraClient.constructor | src/client/HydraClient.ts:8-21 | replaying, a fresh node state, no listeners or connection, not launched; the name defaults when absent or empty |
| Client.HydraClient.Init | src/client/HydraClient.ts:23-29 | the re-entry guard, as ClientSpec.Launch |
| Client.HydraClient.OnOpen | src/client/HydraClient.ts:38-42 | the open handler stores the socket, as ClientSpec.Opened |
| Client.HydraClient.OnMessage | src/client/HydraClient.ts:52-54 | the new state is ClientSpec.OnMessage of the old one |
| Client.HydraClient.OffMessage | src/client/HydraClient.ts:56-58 | the new state is ClientSpec.OffMessage of the old one |
| Client.HydraClient.Close | src/client/HydraClient.ts:60-64 | the new state is ClientSpec.Close of the old one |
| Client.HydraClient.Send | src/client/HydraClient.ts:66-72 | fails and changes nothing without a connection; otherwise the new state is ClientSpec.Send of the old one |
| Client.HydraClient.HandleServerResponse | src/client/HydraClient.ts:87-155 | returns ClientSpec.Step's error and changes nothing on an unknown tag; otherwise the new state is Step's result |
| Client.HydraClient.Dispatch | src/client/HydraClient.ts:90-147 | runs the tag's handler, so the node state becomes HeadMirror.Apply's result; reports an unknown tag and changes nothing then |
| Client.HydraClient.NotifyListeners | src/client/HydraClient.ts:150-152 | the log gains Broadcast of the record to the listener list |
| Client.HydraClient.HandleGreetings | src/client/HydraClient.ts:157-161 | clears the replay flag and sets nodeId |
| Client.HydraClient.HandlePeerConnected | src/client/HydraClient.ts:163-165 | adds the peer in place |
| Client.HydraClient.HandlePeerDisconnected | src/client/HydraClient.ts:167-169 | removes the peer in place |
| Client.HydraClient.HandleHeadIsInitializing | src/client/HydraClient.ts:171-176 | sets the phase, clears the commits, and sets the head id and parties |
| Client.HydraClient.HandleHeadIsAborted | src/client/HydraClient.ts:178-183 | clears the parties, commits and head id, and sets Idle |
| Client.HydraClient.HandleSnapshotConfirmed | src/client/HydraClient.ts:185-187 | replaces the head outputs |
| Client.HydraClient.HandleCommitted | src/client/HydraClient.ts:201-211 | creates the party's entry if missing, then merges the outputs into it |
| Client.HydraClient.HandleHeadIsClosed | src/client/HydraClient.ts:213-216 | sets the deadline and Closed |
| Client.HydraClient.HandleHeadIsOpen | src/client/HydraClient.ts:218-221 | replaces the head outputs and sets Open |
| Client.HydraClient.HandleReadyToFanout | src/client/HydraClient.ts:223-226 | clears the deadline and sets FanoutPossible |
| Client.HydraClient.HandleHeadIsFinalized | src/client/HydraClient.ts:228-230 | sets Final; the record's outputs are ignored |
| Client.HydraClient.HandleGetUTxOResponse | src/client/HydraClient.ts:232-234 | replaces the head outputs |

## Left out

- The socket setup in `init` (src/client/HydraClient.ts:31-49) is not modelled: creating
  the socket, registering its listeners and the returned promise. Only the re-entry guard
  (`Init`) and the open handler (`OnOpen`) are modelled. The error handler's call to
  `close` is the same as `Close`.
- The history-complete callback that `Greetings` invokes (src/client/HydraClient.ts:158)
  is left out. It only resolves the pending promise of `init`, which is asynchronous.
- JSON decoding and encoding are left out. Records arrive as the `ServerResponse`
  datatype, and a command is sent as a `ClientInput` value.
- Closing the socket itself (`ws?.close()`) is left out, because it is transport I/O.
  `Close` only forgets the connection.
- `commit` is left out. It is a stateless HTTP request that never touches the client's
  state.
- Logging to the console is left out.
- The `Date` conversion of the contestation deadline is left out. The deadline is copied
  from the record as an opaque timestamp.
- The numeric contents of values and the bodies and witnesses of transactions are kept
  opaque.
- Listener callbacks are opaque identities. They always return normally and have no
  effect on the client or on the record they receive. A callback in the code may call
  `send`, `close`, `onMessage` or `offMessage`. It may call `handleServerResponse` again.
  It may also mutate the record. None of this is modelled. The frame clauses of
  `ClientSpec.Step` and `ClientSpec.RunFrame` hold only under this assumption. They say
  that listeners, connection and outbox are unchanged.
- A callback that throws is not modelled.
- Aliasing between a record and the node state is not modelled. In the code, after
  `HeadIsInitializing` the node state's `parties` is the record's own array. After
  `SnapshotConfirmed`, `HeadIsOpen` and `GetUTxOResponse`, `headUtxos` is the record's
  own object. A listener that mutates its argument then mutates the node state. Here all
  of these are values.
- The code neither isolates callback failures nor validates phase changes. The model has
  neither.
- What happens after an unknown tag depends on the host, which is not modelled. The error
  escapes the socket's message listener. A browser reports it and keeps delivering
  messages. Node.js treats it as an uncaught exception and by default exits. The model
  follows the first behaviour.
- The dictionaries `committedUtxos` and each output set are plain objects in the code.
  The model uses Dafny maps and assumes that no party key or output reference is
  `__proto__`. For that key, the lookup in the code finds the object's prototype
  instead of a missing entry, and the assignment replaces the prototype instead of adding
  a key.
