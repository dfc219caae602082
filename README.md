# dkernel: event admission, subscriber registry and query-result equality

This project models the core of `dkernel`, the kernel of a collaborative, node-based program editor.

The kernel pulls a batch of log entries from its repository. It audits each entry against the
current snapshot. An admitted entry goes, in this order, to:

1. the document store (`hirs`),
2. the history,
3. every registered state (subscriber), each handed the snapshot as it was before the event,
4. the snapshot itself, last.

A denied entry has no effect. States are kept in a registry keyed by their concrete type, so there
is at most one state per type. The query group's error type compares unequal to everything, itself
included. This forces the incremental engine to recompute after an error instead of reusing it.

Files:

- `components.dfy` (module `Components`): events, entries, rules and the snapshot, as values.
- `kernel.dfy` (module `DKernel`):
  - a pure specification: `Step` handles one entry and `Run` folds a batch;
  - reference definitions that follow only the snapshot: `SnapshotAfter`, `Admitted`, `Positions`;
  - lemmas connecting the two;
  - the imperative `Kernel` class, proved against `Run`, with the `Repository` and `Subscriber` classes.
- `integration.dfy` (module `Integration`): the kernel's integration test, replayed with one
  concrete audit and snapshot update.
- `queries.dfy` (module `Queries`): `KernelError`, `KernelResult`, the two equalities, the
  "unchanged" predicate, and the input/derived split of the query signatures.

How the collaborators are modelled:

- The audit and `Snapshot::handle_event` are not part of this model. `Kernel` receives them as
  functions (`audit`, `update`), so every kernel lemma holds for any audit and any snapshot update.
- The document store, the history and the states are write-only from the kernel's side. Each is
  modelled by the sequence of calls it received (`Observation` = snapshot handed over + event).
  For a deterministic handler, that sequence determines the component's state.
- `Kernel.Abstract()` is the kernel's state as a `KernelState` value. `Process` is proved to leave
  `Abstract() == Run(audit, update, old(Abstract()), polled batch)`.

The integration test's assertions on the calls are proved for every audit and snapshot update
that deny the test's fourth entry and admit the other six (`CallsForAnyAudit`). The audit rules
are not part of this model, so this is all the test pins down about them. `ReferenceAudit` and
`ReferenceUpdate` in `integration.dfy` are one such pair. Their rules were chosen to reproduce the
test's outcome:

- owner events are allowed to an owner, or while there is no owner yet;
- file events are allowed to owners;
- node events are allowed when the node's file grants the operation to the actor.

They serve as the witness that such an audit exists, for the snapshot assertions, and for the
replay through the imperative kernel.

The test asserts one owner and six calls (`crates/systems/dkernel/src/lib.rs:214-215`,
`:248-252`). The model follows the test: the `AddOwner(b)` entry from `b`, who is not an owner,
is denied.

## Model

| member | source | states |
|---|---|---|
| DKernel.Kernel.constructor | crates/systems/dkernel/src/lib.rs:29-37 | a new kernel keeps the given repository and has empty hirs, history and registry and the default snapshot |
| DKernel.Kernel.Commit | crates/systems/dkernel/src/lib.rs:39-41 | the event is appended to the repository's outbox exactly as given; there is no audit; kernel state and pending entries are unchanged |
| DKernel.Kernel.Process | crates/systems/dkernel/src/lib.rs:43-55 | polls once (poll count + 1, nothing left pending); the new kernel state is `Run` of the old state over the polled batch in poll order; the registry keeps the same instances; an empty poll changes nothing |
| DKernel.Kernel.HandleEntry | crates/systems/dkernel/src/lib.rs:46-53 | one entry: the new state is `Step` of the old, so hirs, history, every state and the snapshot change only if the audit allows the entry against the current snapshot |
| DKernel.Kernel.DeliverToStates | crates/systems/dkernel/src/lib.rs:49-51 | every registered state receives exactly one more call, with the given snapshot and event, whatever order the states are visited in |
| DKernel.Kernel.AddState | crates/systems/dkernel/src/lib.rs:57-59 | the state is filed under its own type, replacing any earlier state of that type; no other entry changes; one state per type still holds |
| DKernel.Kernel.GetState | crates/systems/dkernel/src/lib.rs:61-65 | None exactly when no state of that type is registered; otherwise the registered instance, and it is of the requested type (the downcast cannot fail) |
| DKernel.Kernel.GetStateMut | crates/systems/dkernel/src/lib.rs:67-71 | the same answer as GetState, as an instance the caller may change in place |
| DKernel.Repository.Poll | crates/systems/dkernel/src/lib.rs:44 | hands over the pending entries in order and leaves none pending; counts the poll |
| DKernel.Repository.Commit | crates/systems/dkernel/src/lib.rs:40 | appends the event to the outbox and changes nothing else |
| DKernel.Subscriber.HandleEvent | crates/systems/dkernel/src/lib.rs:119-123 | records one call with the snapshot and event it was handed |
| DKernel.Deliver | crates/systems/dkernel/src/lib.rs:49-51 | every registered state, and no other, gets the one call `(snapshot before the event, event)` appended to the calls it has received |
| DKernel.Step | crates/systems/dkernel/src/lib.rs:46-53 | one polled entry: if the audit allows it against the current snapshot, hirs gets the event, the history and every state get `(current snapshot, event)`, and then the snapshot is updated; otherwise nothing changes |
| DKernel.Run | crates/systems/dkernel/src/lib.rs:44-54 | a polled batch is handled entry by entry, in poll order, each entry against the state the earlier ones left |
| DKernel.Admitted | crates/systems/dkernel/src/lib.rs:45-53 | a batch yields at most one admitted observation per entry |
| DKernel.RunAppend | crates/systems/dkernel/src/lib.rs:43-54 | handling two batches in turn is the same as handling their concatenation |
| DKernel.DeniedStepUnchanged | crates/systems/dkernel/src/lib.rs:46-53 | a denied entry leaves hirs, history, every state and the snapshot unchanged |
| DKernel.DeniedBatchUnchanged | crates/systems/dkernel/src/lib.rs:44-54 | a batch denied entry by entry (the empty batch included) leaves the whole kernel state unchanged |
| DKernel.RunSnapshot | crates/systems/dkernel/src/lib.rs:46-52 | after a batch the snapshot has been updated by the admitted events only, in order |
| DKernel.RunHirsHistory | crates/systems/dkernel/src/lib.rs:47-48 | after a batch, hirs and the history have each received the admitted events exactly once, in order; the history got each with the snapshot from before it |
| DKernel.RunStates | crates/systems/dkernel/src/lib.rs:49-51 | each type registered before the batch is still registered, and its state has received the admitted stream exactly once, in order |
| DKernel.AdmittedChain | crates/systems/dkernel/src/lib.rs:48-52 | the first admitted event sees the snapshot the batch started from; each later one sees it updated by exactly the earlier admitted events; the final snapshot is the last one seen, updated by the last event |
| DKernel.PositionsIncreasing | crates/systems/dkernel/src/lib.rs:45 | the admitted positions are positions of the batch and strictly increase, so they follow poll order |
| DKernel.AdmittedAtPositions | crates/systems/dkernel/src/lib.rs:45-52 | the i-th admitted observation is the entry at the i-th admitted position, with the snapshot as updated by the part of the batch before it |
| DKernel.PositionsAudited | crates/systems/dkernel/src/lib.rs:45-46 | an entry is admitted exactly when the audit allows it against the snapshot as updated by the earlier admitted entries of the batch |
| Integration.IntegrationBatch | crates/systems/dkernel/src/lib.rs:135-205 | the seven entries the mocked `poll` hands out, in order: `AddOwner(a)`, `AddFile`, `PatchFile` with the file's rules, `AddOwner(b)` by b, `AddNode(node_a)` by a, `AddNode(node_b)` by b, and `PatchChildren(node_a, Insert(0, node_b))` by b |
| Integration.IntegrationAdmitted | crates/systems/dkernel/src/lib.rs:135-205 | under the reference rules, of the test's seven entries only `AddOwner(b)` by b is denied; the six others are admitted, each with the snapshot from before it |
| Integration.IntegrationSnapshot | crates/systems/dkernel/src/lib.rs:214-215 | after the batch the snapshot has one owner and two flat nodes |
| Integration.ChainCalls | crates/systems/dkernel/src/lib.rs:135-205 | for a seven-entry batch whose fourth entry is denied: six calls, the first `(Snapshot::default(), first event)`, carrying the other six events in poll order |
| Integration.ChainAdmitted | crates/systems/dkernel/src/lib.rs:45-53 | for any audit and snapshot update that deny only the fourth of seven entries, the admitted calls are exactly those six, each with the snapshot before it |
| Integration.ChainStates | crates/systems/dkernel/src/lib.rs:49-51 | under such an audit, a state registered with no calls receives exactly those six calls |
| Integration.CallsForAnyAudit | crates/systems/dkernel/src/lib.rs:248-259 | for any audit and snapshot update that deny the test's `AddOwner(b)` by b and admit its six other entries: six calls carrying the test's six admitted events in order, the first being `(Snapshot::default(), AddOwner(a))`, which occurs exactly once |
| Integration.ReferenceDeniesOnlyFourth | crates/systems/dkernel/src/lib.rs:135-205 | the reference audit and update deny only the fourth entry of the test's batch, so audits of the kind `CallsForAnyAudit` assumes exist |
| Integration.IntegrationCalls | crates/systems/dkernel/src/lib.rs:248-259 | under the reference rules, the registered state is called six times, exactly once with `(Snapshot::default(), AddOwner(a))`, and that is the first call |
| Integration.Replay | crates/systems/dkernel/src/lib.rs:207-212 | for any batch, the test's set-up and one `process` give the snapshot and state calls of `Run` from the registered kernel |
| Integration.IntegrationTest | crates/systems/dkernel/src/lib.rs:125-260 | on the test's batch: one owner, two flat nodes, six calls, the first being `(Snapshot::default(), AddOwner(a))` and matched once |
| Queries.ErrorEq | crates/systems/dkernel/src/queries.rs:59-65 | `KernelError`'s `eq`: answers false whatever the two errors are |
| Queries.ResultEq | crates/systems/dkernel/src/queries.rs:54 | the equality `Result` derives: `Ok` payloads by their own equality, errors by `ErrorEq`, and `Ok` never equals `Err` |
| Queries.SignatureOf | crates/systems/dkernel/src/queries.rs:35-51 | one line per query of the group: whether it is a salsa input, what it is keyed by, and whether it answers with a `KernelResult` |
| Queries.Unchanged | crates/systems/dkernel/src/queries.rs:61-63 | the engine's reuse decision: a recomputed result counts as unchanged from the cached one exactly when the two are equal under the `Result` equality |
| Queries.ErrorEqNeverHolds | crates/systems/dkernel/src/queries.rs:59-65 | KernelError equality is false for every pair of errors, an error and itself included |
| Queries.ResultEqExactlyOk | crates/systems/dkernel/src/queries.rs:54 | two results are equal exactly when both are Ok with equal payloads; two Errs never are; Ok and Err never are |
| Queries.ResultEqNotReflexive | crates/systems/dkernel/src/queries.rs:54-66 | a result equals itself exactly when it is Ok. So the `impl Eq for KernelError {}` at queries.rs:66, which promises reflexivity, is broken on purpose: the FIXME at queries.rs:61-62 gives up `Eq` to force recomputation after every error |
| Queries.ErrorsNeverUnchanged | crates/systems/dkernel/src/queries.rs:61-63 | a result holding an error, cached or recomputed, is never unchanged, so nothing may reuse it |
| Queries.Clone | crates/systems/dkernel/src/queries.rs:56-65 | a clone holds the same shared cause and is the same value as the original, yet a result holding the clone never equals a result holding the original |
| Queries.From | crates/systems/dkernel/src/queries.rs:59-75 | any error value is wrapped as the cause of a KernelError, and a result holding that error is not unchanged even from itself, so it is never reused |
| Queries.CloneSharesButDiffers | crates/systems/dkernel/src/queries.rs:56-75 | as errors, a clone compares unequal to its original, and a wrapped cause compares unequal to itself |
| Queries.InputsAndDerived | crates/systems/dkernel/src/queries.rs:35-51 | only content, children and attributes are inputs, keyed by node and infallible; every other query is derived and returns a KernelResult; build_ast is keyed by node, the others by card |

## Left out

- The audit rules, `History`, `Hirs` and `State` (modules declared at `crates/systems/dkernel/src/lib.rs:1-7`) and the `components` crate's snapshot with its `handle_event` (imported at `lib.rs:13`) are not part of this model. The kernel is generic over the audit and the snapshot update. The other three are modelled by the calls they receive. `ReferenceAudit`/`ReferenceUpdate` are rules chosen to reproduce the test's outcome, not a model of the audit module. The snapshot assertions (`IntegrationSnapshot`, `IntegrationTest`) are proved for them only, since the snapshot's handler is not part of this model.
- The order in which `values_mut` visits the states is unspecified; `DeliverToStates` picks one arbitrarily and its result does not depend on it.
- That hirs is called before the history is not observable here. Both are write-only logs, and neither sees the other.
- The repository implementation and its `add_owner`/`remove_owner`, which the kernel never calls. `Repository` is a stand-in: `poll` hands over pending entries once, `commit` appends to an outbox.
- The test's `hir(node_a)` assertion (`lib.rs:216-246`): the query engine and compiler stages are not modelled.
- The salsa engine (memoisation, dependency tracking, invalidation) and the stage modules `ast`, `hir`, `thir`, `amir`, `mir`, `execution_context`. Only the signatures and the equality that decides reuse are modelled.
- The `Arc` around successful query values, and pointer identity in general. A `KernelError` is a value holding its cause; sharing is equality of that cause.
- `Box<dyn State>`, `TypeId` and downcasting are replaced by a subscriber's `kind` tag. `Send`/`Sync` and the bevy `Component` derive are left out, since there is no concurrency in the core.
- The `link_name` of `Content::Apply`, and the type forms the test does not use.
- The mocking machinery of the test (`mry`). `Subscriber` plays the recording mock's part.
- The websocket server, the editor widgets and the HIR type declarations: they are not part of the kernel's core.
