/** The kernel's integration test.

    The audit and the snapshot's event handler are not part of this model. What the test pins down
    about the calls holds for every audit that denies the fourth entry and admits the others
    (`CallsForAnyAudit`). The reference versions below are one such audit and snapshot update, with
    rules chosen to reproduce the test's outcome: owner events are allowed to an owner, or to anyone
    while there is no owner yet; file events are allowed to owners; node events are allowed when the
    node's file grants the operation to the actor (a per-user override wins over the defaults). They
    are used for the snapshot assertions and for the replay through the imperative kernel. */
module Integration {
  import opened Components
  import opened DKernel

  /** Whether a file's rules grant `op` to `user`. */
  function Granted(rules: Rules, user: UserId, op: NodeOperation): bool
  {
    if user in rules.users then op in rules.users[user] else op in rules.defaults
  }

  function OperationOf(patch: ChildrenPatch): NodeOperation
  {
    match patch
    case Insert(_, _) => PatchChildrenInsert
    case Remove(_) => PatchChildrenRemove
    case Move(_, _) => PatchChildrenMove
  }

  function ReferenceAudit(s: Snapshot, entry: EventEntry): bool
  {
    var actor := entry.userId;
    match entry.event
    case AddOwner(_) => s.owners == {} || actor in s.owners
    case RemoveOwner(_) => s.owners == {} || actor in s.owners
    case AddFile(_) => actor in s.owners
    case PatchFile(_, _) => actor in s.owners
    case AddNode(_, file, _) => file in s.files && Granted(s.files[file], actor, NodeOperation.AddNode)
    case PatchChildren(node, patch) =>
      node in s.flatNodes && s.flatNodes[node].file in s.files &&
      Granted(s.files[s.flatNodes[node].file], actor, OperationOf(patch))
  }

  function PatchedChildren(children: seq<NodeId>, patch: ChildrenPatch): seq<NodeId>
  {
    match patch
    case Insert(i, node) => if i <= |children| then children[..i] + [node] + children[i..] else children
    case Remove(i) => if i < |children| then children[..i] + children[i + 1..] else children
    case Move(i, target) =>
      if i < |children| && target < |children| then
        var without := children[..i] + children[i + 1..];
        without[..target] + [children[i]] + without[target..]
      else children
  }

  function ReferenceUpdate(s: Snapshot, event: Event): Snapshot
  {
    match event
    case AddOwner(user) => s.(owners := s.owners + {user})
    case RemoveOwner(user) => s.(owners := s.owners - {user})
    case AddFile(file) => s.(files := s.files[file := Rules({}, map[])])
    case PatchFile(file, UpdateRules(rules)) => s.(files := s.files[file := rules])
    case AddNode(node, file, content) => s.(flatNodes := s.flatNodes[node := FlatNode(file, content, [])])
    case PatchChildren(node, patch) =>
      if node in s.flatNodes then
        var n := s.flatNodes[node];
        s.(flatNodes := s.flatNodes[node := n.(children := PatchedChildren(n.children, patch))])
      else s
  }

  const UserA: UserId := "a"
  const UserB: UserId := "b"
  const NodeA: NodeId := "node-a"
  const NodeB: NodeId := "node-b"
  const File: FileId := "file"
  const TestStateKind: Tag := "TestState"

  const FileRules: Rules := Rules({NodeOperation.AddNode, PatchChildrenInsert}, map[])
  const ApplyContent: Content := Apply(Function([Type.String], Number))
  const StringContent: Content := Content.String("string")

  /** The seven entries the test's repository hands out. */
  function IntegrationBatch(): seq<EventEntry>
  {
    [ EventEntry(0, UserA, AddOwner(UserA)),
      EventEntry(0, UserA, AddFile(File)),
      EventEntry(0, UserA, PatchFile(File, UpdateRules(FileRules))),
      EventEntry(0, UserB, AddOwner(UserB)),
      EventEntry(0, UserA, Event.AddNode(NodeA, File, ApplyContent)),
      EventEntry(1, UserB, Event.AddNode(NodeB, File, StringContent)),
      EventEntry(1, UserB, PatchChildren(NodeA, Insert(0, NodeB))) ]
  }

  /** The snapshots handed to the subscribers, in order. */
  const S1: Snapshot := Snapshot({UserA}, map[], map[])
  const S2: Snapshot := Snapshot({UserA}, map[File := Rules({}, map[])], map[])
  const S3: Snapshot := Snapshot({UserA}, map[File := FileRules], map[])
  const S4: Snapshot := Snapshot({UserA}, map[File := FileRules], map[NodeA := FlatNode(File, ApplyContent, [])])
  const S5: Snapshot := Snapshot({UserA}, map[File := FileRules],
                                 map[NodeA := FlatNode(File, ApplyContent, []), NodeB := FlatNode(File, StringContent, [])])
  const S6: Snapshot := Snapshot({UserA}, map[File := FileRules],
                                 map[NodeA := FlatNode(File, ApplyContent, [NodeB]), NodeB := FlatNode(File, StringContent, [])])

  /** The calls the registered state should receive: the six admitted events, each with the
      snapshot before it. */
  function ExpectedCalls(): seq<Observation>
  {
    [ Observation(EmptySnapshot, AddOwner(UserA)),
      Observation(S1, AddFile(File)),
      Observation(S2, PatchFile(File, UpdateRules(FileRules))),
      Observation(S3, Event.AddNode(NodeA, File, ApplyContent)),
      Observation(S4, Event.AddNode(NodeB, File, StringContent)),
      Observation(S5, PatchChildren(NodeA, Insert(0, NodeB))) ]
  }

  lemma DistinctIds()
    ensures UserA != UserB && NodeA != NodeB
  {
    assert UserA[0] != UserB[0];
    assert NodeA[5] != NodeB[5];
  }

  /** One entry of the batch: what it is handed and what the snapshot becomes. */
  lemma AdmittedCons(audit: Audit, update: SnapshotUpdate, s: Snapshot, entries: seq<EventEntry>)
    requires entries != []
    ensures Admitted(audit, update, s, entries) ==
            (if audit(s, entries[0]) then [Observation(s, entries[0].event)] else []) +
            Admitted(audit, update, Advance(audit, update, s, entries[0]), entries[1..])
    ensures SnapshotAfter(audit, update, s, entries) ==
            SnapshotAfter(audit, update, Advance(audit, update, s, entries[0]), entries[1..])
  {
  }

  /** The snapshots a snapshot update produces along a seven-entry batch whose fourth entry is
      denied and the others admitted: the i-th is the one the i-th admitted entry is audited
      against. */
  function ChainSnapshots(update: SnapshotUpdate, b: seq<EventEntry>): (t: seq<Snapshot>)
    requires |b| == 7
    ensures |t| == 6 && t[0] == EmptySnapshot
  {
    var t1 := update(EmptySnapshot, b[0].event);
    var t2 := update(t1, b[1].event);
    var t3 := update(t2, b[2].event);
    var t4 := update(t3, b[4].event);
    var t5 := update(t4, b[5].event);
    [EmptySnapshot, t1, t2, t3, t4, t5]
  }

  /** The audit, run along a seven-entry batch from the default snapshot, denies the fourth entry
      (in the test, `AddOwner(b)` by b) and admits all the others. */
  predicate DeniesOnlyFourth(audit: Audit, update: SnapshotUpdate, b: seq<EventEntry>)
  {
    |b| == 7 &&
    var t := ChainSnapshots(update, b);
    audit(t[0], b[0]) && audit(t[1], b[1]) && audit(t[2], b[2]) && !audit(t[3], b[3]) &&
    audit(t[3], b[4]) && audit(t[4], b[5]) && audit(t[5], b[6])
  }

  /** The calls such a batch makes: the six admitted entries, each with the snapshot before it. */
  function ChainCalls(update: SnapshotUpdate, b: seq<EventEntry>): (calls: seq<Observation>)
    requires |b| == 7
    ensures |calls| == 6 && calls[0] == Observation(EmptySnapshot, b[0].event)
    ensures calls[1].event == b[1].event && calls[2].event == b[2].event && calls[3].event == b[4].event
    ensures calls[4].event == b[5].event && calls[5].event == b[6].event
    ensures Events(calls) == [b[0].event, b[1].event, b[2].event, b[4].event, b[5].event, b[6].event]
  {
    var t := ChainSnapshots(update, b);
    var calls := [ Observation(t[0], b[0].event), Observation(t[1], b[1].event), Observation(t[2], b[2].event),
                   Observation(t[3], b[4].event), Observation(t[4], b[5].event), Observation(t[5], b[6].event) ];
    assert Events(calls[5..]) == [b[6].event] by { assert calls[5..][1..] == []; }
    assert Events(calls[4..]) == [b[5].event] + Events(calls[5..]) by { assert calls[4..][1..] == calls[5..]; }
    assert Events(calls[3..]) == [b[4].event] + Events(calls[4..]) by { assert calls[3..][1..] == calls[4..]; }
    assert Events(calls[2..]) == [b[2].event] + Events(calls[3..]) by { assert calls[2..][1..] == calls[3..]; }
    assert Events(calls[1..]) == [b[1].event] + Events(calls[2..]) by { assert calls[1..][1..] == calls[2..]; }
    calls
  }

  /** Whatever the audit's rules and the snapshot's handler, an audit that denies only the fourth
      entry admits the other six, in poll order, each with the snapshot before it. */
  lemma {:induction false} ChainAdmitted(audit: Audit, update: SnapshotUpdate, b: seq<EventEntry>)
    requires DeniesOnlyFourth(audit, update, b)
    ensures Admitted(audit, update, EmptySnapshot, b) == ChainCalls(update, b)
  {
    var t := ChainSnapshots(update, b);
    AdmittedCons(audit, update, t[0], b);
    AdmittedCons(audit, update, t[1], b[1..]);
    AdmittedCons(audit, update, t[2], b[2..]);
    AdmittedCons(audit, update, t[3], b[3..]);
    AdmittedCons(audit, update, t[3], b[4..]);
    AdmittedCons(audit, update, t[4], b[5..]);
    AdmittedCons(audit, update, t[5], b[6..]);
    assert b[1..][1..] == b[2..] && b[2..][1..] == b[3..] && b[3..][1..] == b[4..];
    assert b[4..][1..] == b[5..] && b[5..][1..] == b[6..] && b[6..][1..] == [];
  }

  /** The calls the test asserts on, whatever the audit's rules and the snapshot's handler, as long
      as the audit denies only the fourth entry: the registered state is called six times, with the
      six other events in poll order, and exactly one of those calls is
      `(Snapshot::default(), AddOwner(a))`, the first. */
  lemma CallsForAnyAudit(audit: Audit, update: SnapshotUpdate, k: KernelState)
    requires k.snapshot == EmptySnapshot && TestStateKind in k.states && k.states[TestStateKind] == []
    requires DeniesOnlyFourth(audit, update, IntegrationBatch())
    ensures TestStateKind in Run(audit, update, k, IntegrationBatch()).states
    ensures |Run(audit, update, k, IntegrationBatch()).states[TestStateKind]| == 6
    ensures Events(Run(audit, update, k, IntegrationBatch()).states[TestStateKind]) ==
            [ AddOwner(UserA), AddFile(File), PatchFile(File, UpdateRules(FileRules)),
              Event.AddNode(NodeA, File, ApplyContent), Event.AddNode(NodeB, File, StringContent),
              PatchChildren(NodeA, Insert(0, NodeB)) ]
    ensures Run(audit, update, k, IntegrationBatch()).states[TestStateKind][0] ==
            Observation(EmptySnapshot, AddOwner(UserA))
    ensures multiset(Run(audit, update, k, IntegrationBatch()).states[TestStateKind])
              [Observation(EmptySnapshot, AddOwner(UserA))] == 1
  {
    var b := IntegrationBatch();
    var calls := ChainCalls(update, b);
    ChainStates(audit, update, k, b);
    OnlyFirstAddsOwner(calls);
  }

  /** For any seven-entry batch of which the audit denies only the fourth, a state registered
      before it, with no calls yet, receives exactly the six admitted calls. */
  lemma ChainStates(audit: Audit, update: SnapshotUpdate, k: KernelState, b: seq<EventEntry>)
    requires k.snapshot == EmptySnapshot && TestStateKind in k.states && k.states[TestStateKind] == []
    requires DeniesOnlyFourth(audit, update, b)
    ensures TestStateKind in Run(audit, update, k, b).states
    ensures Run(audit, update, k, b).states[TestStateKind] == ChainCalls(update, b)
  {
    ChainAdmitted(audit, update, b);
    RunStates(audit, update, k, b);
    assert Run(audit, update, k, b).states[TestStateKind] == [] + ChainCalls(update, b);
  }

  /** In a sequence of calls whose events after the first are no `AddOwner`, the first call occurs
      exactly once. */
  lemma OnlyFirstAddsOwner(calls: seq<Observation>)
    requires calls != [] && calls[0].event.AddOwner?
    requires forall i :: 1 <= i < |calls| ==> !calls[i].event.AddOwner?
    ensures multiset(calls)[calls[0]] == 1
  {
    var later := calls[1..];
    assert calls == [calls[0]] + later;
    assert forall i :: 0 <= i < |later| ==> later[i] == calls[i + 1];
    assert calls[0] !in later;
  }

  lemma IntegrationSnapshots()
    ensures Advance(ReferenceAudit, ReferenceUpdate, EmptySnapshot, IntegrationBatch()[0]) == S1
    ensures Advance(ReferenceAudit, ReferenceUpdate, S1, IntegrationBatch()[1]) == S2
    ensures Advance(ReferenceAudit, ReferenceUpdate, S2, IntegrationBatch()[2]) == S3
    ensures !ReferenceAudit(S3, IntegrationBatch()[3])
    ensures Advance(ReferenceAudit, ReferenceUpdate, S3, IntegrationBatch()[4]) == S4
    ensures Advance(ReferenceAudit, ReferenceUpdate, S4, IntegrationBatch()[5]) == S5
    ensures Advance(ReferenceAudit, ReferenceUpdate, S5, IntegrationBatch()[6]) == S6
  {
    DistinctIds();
    assert ReferenceAudit(EmptySnapshot, IntegrationBatch()[0]);
    assert ReferenceAudit(S1, IntegrationBatch()[1]);
    assert ReferenceAudit(S2, IntegrationBatch()[2]);
    assert ReferenceAudit(S3, IntegrationBatch()[4]);
    assert ReferenceAudit(S4, IntegrationBatch()[5]);
    assert ReferenceAudit(S5, IntegrationBatch()[6]);
    assert PatchedChildren([], Insert(0, NodeB)) == [NodeB];
    assert S5.flatNodes[NodeA := FlatNode(File, ApplyContent, [NodeB])] == S6.flatNodes;
  }

  /** The reference rules are an audit of the kind `CallsForAnyAudit` speaks of: they deny the
      fourth entry (b is not an owner and owners exist) and admit the others. */
  lemma ReferenceDeniesOnlyFourth()
    ensures DeniesOnlyFourth(ReferenceAudit, ReferenceUpdate, IntegrationBatch())
  {
    IntegrationSnapshots();
    DistinctIds();
    var t := ChainSnapshots(ReferenceUpdate, IntegrationBatch());
    assert ReferenceAudit(EmptySnapshot, IntegrationBatch()[0]);
    assert t[1] == S1;
    assert ReferenceAudit(S1, IntegrationBatch()[1]);
    assert t[2] == S2;
    assert ReferenceAudit(S2, IntegrationBatch()[2]);
    assert t[3] == S3;
    assert ReferenceAudit(S3, IntegrationBatch()[4]);
    assert t[4] == S4;
    assert ReferenceAudit(S4, IntegrationBatch()[5]);
    assert t[5] == S5;
    assert ReferenceAudit(S5, IntegrationBatch()[6]);
  }

  /** The audit denies only the fourth entry (b is not an owner and owners exist), so six events
      are admitted, each with the snapshot before it. */
  lemma IntegrationAdmitted()
    ensures Admitted(ReferenceAudit, ReferenceUpdate, EmptySnapshot, IntegrationBatch()) == ExpectedCalls()
    ensures SnapshotAfter(ReferenceAudit, ReferenceUpdate, EmptySnapshot, IntegrationBatch()) == S6
  {
    var b := IntegrationBatch();
    IntegrationSnapshots();
    AdmittedCons(ReferenceAudit, ReferenceUpdate, EmptySnapshot, b);
    AdmittedCons(ReferenceAudit, ReferenceUpdate, S1, b[1..]);
    AdmittedCons(ReferenceAudit, ReferenceUpdate, S2, b[2..]);
    AdmittedCons(ReferenceAudit, ReferenceUpdate, S3, b[3..]);
    AdmittedCons(ReferenceAudit, ReferenceUpdate, S3, b[4..]);
    AdmittedCons(ReferenceAudit, ReferenceUpdate, S4, b[5..]);
    AdmittedCons(ReferenceAudit, ReferenceUpdate, S5, b[6..]);
    assert b[1..][1..] == b[2..] && b[2..][1..] == b[3..] && b[3..][1..] == b[4..];
    assert b[4..][1..] == b[5..] && b[5..][1..] == b[6..] && b[6..][1..] == [];
  }

  /** The snapshot the test asserts on: one owner (the AddOwner by non-owner b was denied) and
      two flat nodes (b's AddNode was admitted through the file's default rules). */
  lemma IntegrationSnapshot(k: KernelState)
    requires k.snapshot == EmptySnapshot
    ensures |Run(ReferenceAudit, ReferenceUpdate, k, IntegrationBatch()).snapshot.owners| == 1
    ensures |Run(ReferenceAudit, ReferenceUpdate, k, IntegrationBatch()).snapshot.flatNodes| == 2
  {
    var r := Run(ReferenceAudit, ReferenceUpdate, k, IntegrationBatch());
    IntegrationAdmitted();
    DistinctIds();
    RunSnapshot(ReferenceAudit, ReferenceUpdate, k, IntegrationBatch());
    assert r.snapshot == S6;
    assert S6.flatNodes.Keys == {NodeA, NodeB};
  }

  /** The calls the test asserts on: the registered state is called six times, and exactly one of
      those calls is `(Snapshot::default(), AddOwner(a))`, the first. */
  lemma IntegrationCalls(k: KernelState)
    requires k.snapshot == EmptySnapshot && TestStateKind in k.states && k.states[TestStateKind] == []
    ensures TestStateKind in Run(ReferenceAudit, ReferenceUpdate, k, IntegrationBatch()).states
    ensures |Run(ReferenceAudit, ReferenceUpdate, k, IntegrationBatch()).states[TestStateKind]| == 6
    ensures Run(ReferenceAudit, ReferenceUpdate, k, IntegrationBatch()).states[TestStateKind][0] ==
            Observation(EmptySnapshot, AddOwner(UserA))
    ensures multiset(Run(ReferenceAudit, ReferenceUpdate, k, IntegrationBatch()).states[TestStateKind])
              [Observation(EmptySnapshot, AddOwner(UserA))] == 1
  {
    ReferenceDeniesOnlyFourth();
    CallsForAnyAudit(ReferenceAudit, ReferenceUpdate, k);
  }

  /** The kernel as the test sets it up, just before `process`. */
  const Registered: KernelState := KernelState([], EmptySnapshot, [], map[TestStateKind := []])

  /** The test's steps for any batch: a kernel over a repository holding the batch, one registered
      state, one call to process, then a look at the snapshot and at the state's calls. */
  method Replay(batch: seq<EventEntry>) returns (owners: nat, flatNodes: nat, calls: seq<Observation>)
    ensures owners == |Run(ReferenceAudit, ReferenceUpdate, Registered, batch).snapshot.owners|
    ensures flatNodes == |Run(ReferenceAudit, ReferenceUpdate, Registered, batch).snapshot.flatNodes|
    ensures TestStateKind in Run(ReferenceAudit, ReferenceUpdate, Registered, batch).states
    ensures calls == Run(ReferenceAudit, ReferenceUpdate, Registered, batch).states[TestStateKind]
  {
    var repository := new Repository(batch);
    var kernel := new Kernel(repository, ReferenceAudit, ReferenceUpdate);
    var testState := new Subscriber(TestStateKind);
    kernel.AddState(testState);
    assert kernel.Abstract() == Registered;
    kernel.Process();
    RunStates(ReferenceAudit, ReferenceUpdate, Registered, batch);
    owners := |kernel.snapshot.owners|;
    flatNodes := |kernel.snapshot.flatNodes|;
    var found := kernel.GetStateMut(TestStateKind);
    calls := found.value.calls;
    assert calls == kernel.Abstract().states[TestStateKind];
  }

  /** The test itself, on its seven entries. */
  method IntegrationTest() returns (owners: nat, flatNodes: nat, calls: seq<Observation>)
    ensures owners == 1 && flatNodes == 2
    ensures |calls| == 6 && calls[0] == Observation(EmptySnapshot, AddOwner(UserA))
    ensures multiset(calls)[Observation(EmptySnapshot, AddOwner(UserA))] == 1
  {
    owners, flatNodes, calls := Replay(IntegrationBatch());
    IntegrationSnapshot(Registered);
    IntegrationCalls(Registered);
  }
}
