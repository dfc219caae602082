/** Values the kernel consumes: events and their log entries, per-file rules and the snapshot
    projection. They belong to the `components` crate, which is not part of this model; only the
    shape that the kernel and its integration test rely on is kept here. */
module Components {

  type UserId = string
  type FileId = string
  type NodeId = string

  /** The operations a file's rules can grant. */
  datatype NodeOperation = AddNode | PatchChildrenInsert | PatchChildrenRemove | PatchChildrenMove

  /** Per-file policy: the operations granted to everybody, and per-user overrides. */
  datatype Rules = Rules(defaults: set<NodeOperation>, users: map<UserId, set<NodeOperation>>)

  /** The slice of the type language that the integration test writes down. */
  datatype Type = Number | String | Function(parameters: seq<Type>, body: Type)

  datatype Content = String(text: string) | Integer(number: int) | Apply(ty: Type)

  datatype ChildrenPatch = Insert(index: nat, node: NodeId) | Remove(index: nat) | Move(index: nat, target: nat)

  datatype FilePatch = UpdateRules(rules: Rules)

  datatype Event =
    | AddOwner(userId: UserId)
    | RemoveOwner(userId: UserId)
    | AddFile(fileId: FileId)
    | PatchFile(fileId: FileId, patch: FilePatch)
    | AddNode(nodeId: NodeId, fileId: FileId, content: Content)
    | PatchChildren(nodeId: NodeId, childrenPatch: ChildrenPatch)

  /** One logged occurrence of an event: its log index (informational), its actor and the event. */
  datatype EventEntry = EventEntry(index: nat, userId: UserId, event: Event)

  datatype FlatNode = FlatNode(file: FileId, content: Content, children: seq<NodeId>)

  /** The projection of all admitted events: owners, per-file rules and the flat node table. */
  datatype Snapshot = Snapshot(owners: set<UserId>, files: map<FileId, Rules>, flatNodes: map<NodeId, FlatNode>)

  /** `Snapshot::default()`. */
  const EmptySnapshot: Snapshot := Snapshot({}, map[], map[])
}
