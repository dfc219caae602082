/** The kernel of `dkernel`: it polls the repository, gates every entry through the audit and fans
    each admitted event out to the document store (hirs), the history, every registered subscriber
    and, last, the snapshot.

    The audit and the snapshot's own event handler are collaborators whose code is not part of this
    model; the kernel receives them as functions. The document store, the history and the subscribers
    are write-only from the kernel's point of view: each is modelled by the sequence of calls it
    received, which determines its state for any deterministic handler. */
module DKernel {
  import opened Components

  datatype Option<T> = None | Some(value: T)

  /** The arguments of one `handle_event` call: the snapshot as handed over, and the event. */
  datatype Observation = Observation(snapshot: Snapshot, event: Event)

  /** Stands for the `TypeId` of a subscriber's concrete type. */
  type Tag = string

  /** `audit(&snapshot, &entry) == AuditResponse::Allowed`. */
  type Audit = (Snapshot, EventEntry) -> bool

  /** `Snapshot::handle_event`. */
  type SnapshotUpdate = (Snapshot, Event) -> Snapshot

  /** The kernel's state as a value: the events the document store received, the snapshot, the
      history's calls and, per registered subscriber type, that subscriber's calls. */
  datatype KernelState = KernelState(
    hirs: seq<Event>,
    snapshot: Snapshot,
    history: seq<Observation>,
    states: map<Tag, seq<Observation>>)

  /** Every registered subscriber receives one more call. */
  function Deliver(states: map<Tag, seq<Observation>>, seen: Observation): map<Tag, seq<Observation>>
  {
    map t | t in states :: states[t] + [seen]
  }

  /** The handling of one polled entry. */
  function Step(audit: Audit, update: SnapshotUpdate, k: KernelState, entry: EventEntry): KernelState
  {
    if audit(k.snapshot, entry) then
      var seen := Observation(k.snapshot, entry.event);
      KernelState(k.hirs + [entry.event], update(k.snapshot, entry.event), k.history + [seen], Deliver(k.states, seen))
    else
      k
  }

  /** The handling of a polled batch, entry by entry in poll order. */
  function Run(audit: Audit, update: SnapshotUpdate, k: KernelState, entries: seq<EventEntry>): KernelState
    decreases |entries|
  {
    if entries == [] then k
    else Run(audit, update, Step(audit, update, k, entries[0]), entries[1..])
  }

  // ---------------------------------------------------------------------------------------------
  // Reference definitions that follow only the snapshot: which entries the audit admits and what
  // every consumer is handed for them.

  function Advance(audit: Audit, update: SnapshotUpdate, s: Snapshot, entry: EventEntry): Snapshot
  {
    if audit(s, entry) then update(s, entry.event) else s
  }

  /** The snapshot after a batch. */
  function SnapshotAfter(audit: Audit, update: SnapshotUpdate, s: Snapshot, entries: seq<EventEntry>): Snapshot
    decreases |entries|
  {
    if entries == [] then s
    else SnapshotAfter(audit, update, Advance(audit, update, s, entries[0]), entries[1..])
  }

  /** The admitted entries of a batch, each paired with the snapshot it was audited against. */
  function Admitted(audit: Audit, update: SnapshotUpdate, s: Snapshot, entries: seq<EventEntry>): (seen: seq<Observation>)
    ensures |seen| <= |entries|
    decreases |entries|
  {
    if entries == [] then []
    else
      var rest := Admitted(audit, update, Advance(audit, update, s, entries[0]), entries[1..]);
      if audit(s, entries[0]) then [Observation(s, entries[0].event)] + rest else rest
  }

  /** The events of a sequence of calls, in order. */
  function Events(seen: seq<Observation>): (events: seq<Event>)
    ensures |events| == |seen|
  {
    if seen == [] then [] else [seen[0].event] + Events(seen[1..])
  }

  // ---------------------------------------------------------------------------------------------
  // Lemmas

  /** Handling two batches one after the other is handling their concatenation. */
  lemma {:induction false} RunAppend(audit: Audit, update: SnapshotUpdate, k: KernelState, a: seq<EventEntry>, b: seq<EventEntry>)
    ensures Run(audit, update, k, a + b) == Run(audit, update, Run(audit, update, k, a), b)
    decreases |a|
  {
    if a == [] {
      assert a + b == b;
    } else {
      assert (a + b)[0] == a[0];
      assert (a + b)[1..] == a[1..] + b;
      RunAppend(audit, update, Step(audit, update, k, a[0]), a[1..], b);
    }
  }

  /** A denied entry has no effect at all. */
  lemma DeniedStepUnchanged(audit: Audit, update: SnapshotUpdate, k: KernelState, entry: EventEntry)
    requires !audit(k.snapshot, entry)
    ensures Step(audit, update, k, entry) == k
  {
  }

  /** A batch that the audit denies entry by entry leaves the whole kernel state unchanged; in
      particular an empty batch does. */
  lemma {:induction false} DeniedBatchUnchanged(audit: Audit, update: SnapshotUpdate, k: KernelState, entries: seq<EventEntry>)
    requires forall j :: 0 <= j < |entries| ==> !audit(k.snapshot, entries[j])
    ensures Run(audit, update, k, entries) == k
    decreases |entries|
  {
    if entries != [] {
      DeniedStepUnchanged(audit, update, k, entries[0]);
      DeniedBatchUnchanged(audit, update, k, entries[1..]);
    }
  }

  /** The snapshot after a batch follows the admitted events only. */
  lemma {:induction false} RunSnapshot(audit: Audit, update: SnapshotUpdate, k: KernelState, entries: seq<EventEntry>)
    ensures Run(audit, update, k, entries).snapshot == SnapshotAfter(audit, update, k.snapshot, entries)
    decreases |entries|
  {
    if entries != [] {
      RunSnapshot(audit, update, Step(audit, update, k, entries[0]), entries[1..]);
    }
  }

  /** Exactly-once delivery to the document store and the history: after a batch, each has
      received the admitted stream, once each and in order, and nothing else. */
  lemma {:induction false} RunHirsHistory(audit: Audit, update: SnapshotUpdate, k: KernelState, entries: seq<EventEntry>)
    ensures Run(audit, update, k, entries).hirs == k.hirs + Events(Admitted(audit, update, k.snapshot, entries))
    ensures Run(audit, update, k, entries).history == k.history + Admitted(audit, update, k.snapshot, entries)
    decreases |entries|
  {
    if entries != [] {
      var e := entries[0];
      var next := Step(audit, update, k, e);
      RunHirsHistory(audit, update, next, entries[1..]);
      if audit(k.snapshot, e) {
        var seen := Observation(k.snapshot, e.event);
        var rest := Admitted(audit, update, next.snapshot, entries[1..]);
        assert ([seen] + rest)[1..] == rest;
        assert k.hirs + [e.event] + Events(rest) == k.hirs + Events([seen] + rest);
        assert k.history + [seen] + rest == k.history + ([seen] + rest);
      }
    }
  }

  /** Exactly-once delivery to the subscribers: after a batch every type registered before it is
      still registered, and its state has received the admitted stream, once and in order. */
  lemma {:induction false} RunStates(audit: Audit, update: SnapshotUpdate, k: KernelState, entries: seq<EventEntry>)
    ensures Run(audit, update, k, entries).states.Keys == k.states.Keys
    ensures forall t :: t in k.states ==>
              Run(audit, update, k, entries).states[t] == k.states[t] + Admitted(audit, update, k.snapshot, entries)
    decreases |entries|
  {
    if entries != [] {
      var e := entries[0];
      var next := Step(audit, update, k, e);
      RunStates(audit, update, next, entries[1..]);
      if audit(k.snapshot, e) {
        var seen := Observation(k.snapshot, e.event);
        var rest := Admitted(audit, update, next.snapshot, entries[1..]);
        forall t | t in k.states
          ensures Run(audit, update, k, entries).states[t] == k.states[t] + Admitted(audit, update, k.snapshot, entries)
        {
          assert next.states[t] == k.states[t] + [seen];
          assert k.states[t] + [seen] + rest == k.states[t] + ([seen] + rest);
        }
      }
    }
  }

  /** Snapshot-before-event: the first admitted entry is handed the snapshot the batch started
      from, every later one the snapshot updated with exactly the earlier admitted events, and the
      final snapshot is the last one handed over, updated with the last admitted event. */
  lemma {:induction false} AdmittedChain(audit: Audit, update: SnapshotUpdate, s: Snapshot, entries: seq<EventEntry>)
    ensures Admitted(audit, update, s, entries) != [] ==> Admitted(audit, update, s, entries)[0].snapshot == s
    ensures forall i :: 0 < i < |Admitted(audit, update, s, entries)| ==>
              Admitted(audit, update, s, entries)[i].snapshot ==
              update(Admitted(audit, update, s, entries)[i - 1].snapshot, Admitted(audit, update, s, entries)[i - 1].event)
    ensures SnapshotAfter(audit, update, s, entries) ==
              if Admitted(audit, update, s, entries) == [] then s
              else
                var last := Admitted(audit, update, s, entries)[|Admitted(audit, update, s, entries)| - 1];
                update(last.snapshot, last.event)
    decreases |entries|
  {
    if entries != [] {
      var e := entries[0];
      var next := Advance(audit, update, s, e);
      AdmittedChain(audit, update, next, entries[1..]);
      var rest := Admitted(audit, update, next, entries[1..]);
      if audit(s, e) {
        var seen := [Observation(s, e.event)] + rest;
        assert forall i :: 0 < i < |seen| ==> seen[i] == rest[i - 1];
      }
    }
  }

  /** `entries[..j]` seen from the second entry on. */
  lemma PrefixTail(entries: seq<EventEntry>, j: nat)
    requires j < |entries|
    ensures entries[..j + 1][1..] == entries[1..][..j]
  {
  }

  lemma SnapshotAfterPrefix(audit: Audit, update: SnapshotUpdate, s: Snapshot, entries: seq<EventEntry>, j: nat)
    requires j < |entries|
    ensures SnapshotAfter(audit, update, s, entries[..j + 1]) ==
            SnapshotAfter(audit, update, Advance(audit, update, s, entries[0]), entries[1..][..j])
  {
    PrefixTail(entries, j);
    assert entries[..j + 1][0] == entries[0];
  }

  /** The batch positions of the admitted entries, in increasing order. */
  function Positions(audit: Audit, update: SnapshotUpdate, s: Snapshot, entries: seq<EventEntry>): (idx: seq<nat>)
    ensures |idx| == |Admitted(audit, update, s, entries)|
    decreases |entries|
  {
    if entries == [] then []
    else
      var tail := Positions(audit, update, Advance(audit, update, s, entries[0]), entries[1..]);
      var shifted := Shift(tail);
      if audit(s, entries[0]) then [0] + shifted else shifted
  }

  function Shift(xs: seq<nat>): (ys: seq<nat>)
    ensures |ys| == |xs| && forall i :: 0 <= i < |xs| ==> ys[i] == xs[i] + 1
  {
    seq(|xs|, i requires 0 <= i < |xs| => xs[i] + 1)
  }

  /** `j` is a shifted position exactly when `j - 1` was one. */
  lemma ShiftMembership(xs: seq<nat>, j: nat)
    requires 0 < j
    ensures j in Shift(xs) <==> j - 1 in xs
  {
    var ys := Shift(xs);
    if j - 1 in xs {
      var i :| 0 <= i < |xs| && xs[i] == j - 1;
      assert ys[i] == j;
    }
    if j in ys {
      var i :| 0 <= i < |ys| && ys[i] == j;
      assert xs[i] == j - 1;
    }
  }

  /** The positions are positions of the batch, strictly increasing. */
  lemma {:induction false} PositionsIncreasing(audit: Audit, update: SnapshotUpdate, s: Snapshot, entries: seq<EventEntry>)
    ensures forall i :: 0 <= i < |Positions(audit, update, s, entries)| ==> Positions(audit, update, s, entries)[i] < |entries|
    ensures forall i, j :: 0 <= i < j < |Positions(audit, update, s, entries)| ==>
              Positions(audit, update, s, entries)[i] < Positions(audit, update, s, entries)[j]
    decreases |entries|
  {
    if entries != [] {
      var next := Advance(audit, update, s, entries[0]);
      PositionsIncreasing(audit, update, next, entries[1..]);
    }
  }

  /** Ordering: the `i`-th admitted observation is the entry at the `i`-th admitted position,
      paired with the snapshot as updated by the part of the batch before it. */
  lemma {:induction false} AdmittedAtPositions(audit: Audit, update: SnapshotUpdate, s: Snapshot, entries: seq<EventEntry>)
    ensures forall i :: 0 <= i < |Admitted(audit, update, s, entries)| ==>
              Positions(audit, update, s, entries)[i] < |entries| &&
              Admitted(audit, update, s, entries)[i] ==
              Observation(SnapshotAfter(audit, update, s, entries[..Positions(audit, update, s, entries)[i]]),
                          entries[Positions(audit, update, s, entries)[i]].event)
    decreases |entries|
  {
    if entries != [] {
      var e := entries[0];
      var next := Advance(audit, update, s, e);
      AdmittedAtPositions(audit, update, next, entries[1..]);
      var tail := Positions(audit, update, next, entries[1..]);
      var rest := Admitted(audit, update, next, entries[1..]);
      var idx := Positions(audit, update, s, entries);
      var seen := Admitted(audit, update, s, entries);
      var admitted := audit(s, e);
      forall i | 0 <= i < |seen|
        ensures idx[i] < |entries|
        ensures seen[i] == Observation(SnapshotAfter(audit, update, s, entries[..idx[i]]), entries[idx[i]].event)
      {
        if admitted && i == 0 {
          assert entries[..0] == [];
        } else {
          var m := if admitted then i - 1 else i;
          assert idx[i] == tail[m] + 1 && seen[i] == rest[m];
          SnapshotAfterPrefix(audit, update, s, entries, tail[m]);
        }
      }
    }
  }

  /** Each entry is audited against the snapshot as updated by the earlier admitted entries of the
      same batch, and it is admitted exactly when that audit allows it. */
  lemma {:induction false} PositionsAudited(audit: Audit, update: SnapshotUpdate, s: Snapshot, entries: seq<EventEntry>)
    ensures forall j :: 0 <= j < |entries| ==>
              (j in Positions(audit, update, s, entries) <==> audit(SnapshotAfter(audit, update, s, entries[..j]), entries[j]))
    decreases |entries|
  {
    if entries != [] {
      var e := entries[0];
      var next := Advance(audit, update, s, e);
      PositionsAudited(audit, update, next, entries[1..]);
      var tail := Positions(audit, update, next, entries[1..]);
      forall j | 0 <= j < |entries|
        ensures j in Positions(audit, update, s, entries) <==> audit(SnapshotAfter(audit, update, s, entries[..j]), entries[j])
      {
        if j == 0 {
          assert entries[..0] == [];
          assert 0 !in Shift(tail);
        } else {
          ShiftMembership(tail, j);
          SnapshotAfterPrefix(audit, update, s, entries, j - 1);
          assert entries[j] == entries[1..][j - 1];
        }
      }
    }
  }

  // ---------------------------------------------------------------------------------------------
  // The imperative kernel

  /** The repository as the kernel uses it: `poll` hands over the entries not yet polled, `commit`
      appends an event to the outbox; how committed events come back as entries is its own business. */
  class Repository {
    var pending: seq<EventEntry>
    var outbox: seq<Event>
    var polls: nat

    constructor (log: seq<EventEntry>)
      ensures pending == log && outbox == [] && polls == 0
    {
      pending := log;
      outbox := [];
      polls := 0;
    }

    method Poll() returns (entries: seq<EventEntry>)
      modifies this
      ensures entries == old(pending) && pending == []
      ensures outbox == old(outbox) && polls == old(polls) + 1
    {
      entries := pending;
      pending := [];
      polls := polls + 1;
    }

    method Commit(event: Event)
      modifies this
      ensures outbox == old(outbox) + [event]
      ensures pending == old(pending) && polls == old(polls)
    {
      outbox := outbox + [event];
    }
  }

  /** A registered state. Its concrete type is `kind`; what it has been handed is `calls`. */
  class Subscriber {
    const kind: Tag
    var calls: seq<Observation>

    constructor (kind: Tag)
      ensures this.kind == kind && calls == []
    {
      this.kind := kind;
      calls := [];
    }

    method HandleEvent(snapshot: Snapshot, event: Event)
      modifies this
      ensures calls == old(calls) + [Observation(snapshot, event)]
    {
      calls := calls + [Observation(snapshot, event)];
    }
  }

  class Kernel {
    const repository: Repository
    const audit: Audit
    const update: SnapshotUpdate
    var hirs: seq<Event>
    var snapshot: Snapshot
    var history: seq<Observation>
    var states: map<Tag, Subscriber>

    /** Every registered state is filed under its own type, so there is one per type and the
        downcast on lookup cannot fail. */
    ghost predicate Valid()
      reads this
    {
      forall t :: t in states ==> states[t].kind == t
    }

    ghost function Abstract(): KernelState
      reads this, states.Values
    {
      KernelState(hirs, snapshot, history, map t | t in states :: states[t].calls)
    }

    constructor (repository: Repository, audit: Audit, update: SnapshotUpdate)
      ensures this.repository == repository && this.audit == audit && this.update == update
      ensures Valid() && states == map[]
      ensures Abstract() == KernelState([], EmptySnapshot, [], map[])
    {
      this.repository := repository;
      this.audit := audit;
      this.update := update;
      hirs := [];
      snapshot := EmptySnapshot;
      history := [];
      states := map[];
    }

    /** Forwards the event to the repository without auditing it. */
    method Commit(event: Event)
      modifies repository
      ensures repository.outbox == old(repository.outbox) + [event]
      ensures repository.pending == old(repository.pending) && repository.polls == old(repository.polls)
      ensures Abstract() == old(Abstract())
    {
      repository.Commit(event);
    }

    /** Polls once and handles the batch in poll order. */
    method Process()
      requires Valid()
      modifies this, repository, states.Values
      ensures Valid() && states == old(states)
      ensures Abstract() == Run(audit, update, old(Abstract()), old(repository.pending))
      ensures old(repository.pending) == [] ==> Abstract() == old(Abstract())
      ensures repository.pending == [] && repository.polls == old(repository.polls) + 1
      ensures repository.outbox == old(repository.outbox)
    {
      ghost var start := Abstract();
      var entries := repository.Poll();
      var i := 0;
      while i < |entries|
        invariant 0 <= i <= |entries|
        invariant Valid() && states == old(states)
        invariant Abstract() == Run(audit, update, start, entries[..i])
        invariant repository.pending == [] && repository.polls == old(repository.polls) + 1
        invariant repository.outbox == old(repository.outbox)
      {
        var entry := entries[i];
        HandleEntry(entry);
        assert entries[..i + 1] == entries[..i] + [entry];
        RunAppend(audit, update, start, entries[..i], [entry]);
        i := i + 1;
      }
      assert entries[..i] == entries;
    }

    /** The body of the loop in `process`: audit the entry against the current snapshot and, if it
        is allowed, hand it to hirs, the history, every state (with the snapshot before the event)
        and finally the snapshot. */
    method HandleEntry(entry: EventEntry)
      requires Valid()
      modifies this, states.Values
      ensures Valid() && states == old(states)
      ensures Abstract() == Step(audit, update, old(Abstract()), entry)
    {
      if audit(snapshot, entry) {
        ghost var before := Abstract();
        hirs := hirs + [entry.event];
        history := history + [Observation(snapshot, entry.event)];
        DeliverToStates(snapshot, entry.event);
        snapshot := update(snapshot, entry.event);
        assert Abstract().states == Deliver(before.states, Observation(before.snapshot, entry.event));
      }
    }

    /** `for state in self.states.values_mut() { state.handle_event(&self.snapshot, &entry.event) }`,
        visiting the registered states in an unspecified order. */
    method DeliverToStates(seen: Snapshot, event: Event)
      requires Valid()
      modifies states.Values
      ensures forall t :: t in states ==> states[t].calls == old(states[t].calls) + [Observation(seen, event)]
    {
      var pending := states.Keys;
      while pending != {}
        invariant pending <= states.Keys
        invariant forall t :: t in states ==>
                    states[t].calls == old(states[t].calls) + (if t in pending then [] else [Observation(seen, event)])
        decreases pending
      {
        var t :| t in pending;
        states[t].HandleEvent(seen, event);
        pending := pending - {t};
      }
    }

    /** Registers a state under its own type, replacing any earlier state of that type. */
    method AddState(state: Subscriber)
      requires Valid()
      modifies this`states
      ensures Valid()
      ensures states == old(states)[state.kind := state]
      ensures forall t :: t in old(states) && t != state.kind ==> t in states && states[t] == old(states[t])
      ensures Abstract() == old(Abstract()).(states := old(Abstract()).states[state.kind := state.calls])
    {
      states := states[state.kind := state];
    }

    /** The registered state of type `kind`, if any. */
    function GetState(kind: Tag): (r: Option<Subscriber>)
      requires Valid()
      reads this
      ensures r.None? <==> kind !in states
      ensures r.Some? ==> r.value == states[kind] && r.value.kind == kind
    {
      if kind in states then Some(states[kind]) else None
    }

    /** As GetState; the caller may then change the returned state in place. */
    method GetStateMut(kind: Tag) returns (r: Option<Subscriber>)
      requires Valid()
      ensures r.None? <==> kind !in states
      ensures r.Some? ==> r.value == states[kind] && r.value.kind == kind && r.value in states.Values
    {
      if kind in states {
        var state := states[kind];
        r := Some(state);
      } else {
        r := None;
      }
    }
  }
}
