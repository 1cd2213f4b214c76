/** Why snapshot intents never adopt a foreign snapshot and never delete a preserved one. */
module LabSnapshots {
  import opened LabState

  /** External snapshots and effects in flight agree with the tracked records, whose owners were all minted here. */
  predicate SnapshotSafe(records: map<Key, Snapshot>, s: Snaps, minted: nat) {
    && (forall k <- s.present :: s.present[k].Effect? ==> k in records && records[k].owner == s.present[k])
    && (forall e <- s.creates :: e.0 in records && records[e.0].owner == e.1 && records[e.0].state == Creating)
    && (forall k <- s.deletes :: k in records && records[k].state == Deleting)
    && (forall k <- records :: records[k].state == Deleting ==> !records[k].preserve)
    && (forall k <- records :: records[k].owner.Effect? && records[k].owner.token < minted)
    && (forall k, k' | k in records && k' in records && k != k' :: records[k].owner != records[k'].owner)
    && (forall o <- s.deleted :: o.Effect? ==> o.token < minted)
    && (forall k <- records :: records[k].preserve ==> records[k].owner !in s.deleted)
  }

  /** Late snapshot effects keep the invariant: in particular none of them removes a preserved snapshot. */
  lemma SnapshotSafeRely(records: map<Key, Snapshot>, s: Snaps, s': Snaps, minted: nat)
    requires SnapshotSafe(records, s, minted) && SnapsRely(s, s')
    ensures SnapshotSafe(records, s', minted)
  {
  }

  /** No effect in flight touches the snapshots of `v`. */
  predicate Settled(s: Snaps, v: Vm) {
    (forall e <- s.creates :: e.0.0 != v) && (forall k <- s.deletes :: k.0 != v)
  }

  /** A new record under a freshly minted owner is safe next to anything external. */
  lemma NewRecord(records: map<Key, Snapshot>, s: Snaps, minted: nat, k: Key, r: Snapshot)
    requires SnapshotSafe(records, s, minted)
    requires k !in records && r.owner == Effect(minted) && r.state == Creating
    ensures SnapshotSafe(records[k := r], s, minted + 1)
  {
  }

  /** Once nothing is in flight for the slot, a record may move on: to ready, or to deleting if unpreserved. */
  lemma AdvanceRecord(records: map<Key, Snapshot>, s: Snaps, minted: nat, k: Key, st: SnapshotState)
    requires SnapshotSafe(records, s, minted)
    requires k in records && Settled(s, k.0)
    requires st == Deleting ==> !records[k].preserve
    ensures SnapshotSafe(records[k := records[k].(state := st)], s, minted)
  {
  }

  /** A record whose own external snapshot is gone, with nothing in flight, may be forgotten. */
  lemma DropRecord(records: map<Key, Snapshot>, s: Snaps, minted: nat, k: Key)
    requires SnapshotSafe(records, s, minted)
    requires k in records && Settled(s, k.0) && (k in s.present ==> !s.present[k].Effect?)
    ensures SnapshotSafe(records - {k}, s, minted)
  {
  }

  lemma SnapshotSafeMinted(records: map<Key, Snapshot>, s: Snaps, minted: nat)
    requires SnapshotSafe(records, s, minted)
    ensures SnapshotSafe(records, s, minted + 1)
  {
  }

  /** A creation is accepted for a record that is being created, a deletion for one that is being deleted. */
  lemma AcceptedEffects(records: map<Key, Snapshot>, s: Snaps, minted: nat, k: Key)
    requires SnapshotSafe(records, s, minted) && k in records
    ensures records[k].state == Creating ==>
              SnapshotSafe(records, s.(creates := s.creates + {(k, records[k].owner)}), minted)
    ensures records[k].state == Deleting ==> SnapshotSafe(records, s.(deletes := s.deletes + {k}), minted)
  {
  }

  lemma SettledLater(s: Snaps, s': Snaps, v: Vm)
    requires SnapsRely(s, s') && Settled(s, v)
    ensures Settled(s', v)
  {
  }
}
