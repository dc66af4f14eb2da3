/**
 Selecting the latest stored snapshot.  The loader keeps the first record whose
 revision exceeds everything before it, starting from the empty snapshot.
 */
module SnapshotStore {
  import opened State

  function Better(best: Snapshot, record: Snapshot): Snapshot {
    if record.revision > best.revision then record else best
  }

  /** The loader's choice after reading `records` in order with `base` in hand. */
  function Greatest(base: Snapshot, records: seq<Snapshot>): Snapshot
    decreases |records|
  {
    if |records| == 0 then base
    else Better(Greatest(base, records[..|records| - 1]), records[|records| - 1])
  }

  /** Records of equal revision hold the same snapshot, and revision zero is the base. */
  ghost predicate OneStatePerRevision(base: Snapshot, records: seq<Snapshot>) {
    && (forall i, j :: 0 <= i < |records| && 0 <= j < |records| && records[i].revision == records[j].revision
          ==> records[i] == records[j])
    && (forall i :: 0 <= i < |records| && records[i].revision == base.revision ==> records[i] == base)
  }

  lemma GreatestSnoc(base: Snapshot, records: seq<Snapshot>, last: Snapshot)
    ensures Greatest(base, records + [last]) == Better(Greatest(base, records), last)
  {
    assert (records + [last])[..|records|] == records;
  }

  lemma {:induction false} GreatestIsMaximal(base: Snapshot, records: seq<Snapshot>)
    ensures var g := Greatest(base, records);
            && (g == base || g in records)
            && base.revision <= g.revision
            && (forall i :: 0 <= i < |records| ==> records[i].revision <= g.revision)
    decreases |records|
  {
    if records != [] {
      GreatestIsMaximal(base, records[..|records| - 1]);
    }
  }

  /** A candidate that is present and not exceeded is the loader's choice. */
  lemma GreatestIsDetermined(base: Snapshot, records: seq<Snapshot>, g: Snapshot)
    requires OneStatePerRevision(base, records)
    requires g == base || g in records
    requires base.revision <= g.revision
    requires forall i :: 0 <= i < |records| ==> records[i].revision <= g.revision
    ensures Greatest(base, records) == g
  {
    GreatestIsMaximal(base, records);
  }

  /** Order, duplication and compaction of superseded records do not affect what is loaded. */
  lemma LoadIgnoresOrderAndDuplicates(base: Snapshot, a: seq<Snapshot>, b: seq<Snapshot>)
    requires OneStatePerRevision(base, a)
    requires forall x :: x in a <==> x in b
    ensures Greatest(base, a) == Greatest(base, b)
  {
    GreatestIsMaximal(base, a);
    GreatestIsMaximal(base, b);
    var g, k := Greatest(base, a), Greatest(base, b);
    assert k == base || k in a;
    if g in a { assert g in b; }
  }

  ghost predicate Ascending(records: seq<Snapshot>) {
    forall i, j :: 0 <= i <= j < |records| ==> records[i].revision <= records[j].revision
  }

  /** In a store that is only ever appended to in revision order, the last record decides. */
  lemma GreatestOfAscending(base: Snapshot, records: seq<Snapshot>)
    requires OneStatePerRevision(base, records) && Ascending(records)
    requires |records| > 0 && base.revision <= records[|records| - 1].revision
    ensures Greatest(base, records) == records[|records| - 1]
  {
    GreatestIsDetermined(base, records, records[|records| - 1]);
  }

  /**
   A reader that starts at `start`, because an earlier reader's progress was kept, still
   loads the greatest record iff at least one record is left for it or there is nothing
   above the base to miss.
   */
  lemma LoadFromIsRightExactly(base: Snapshot, records: seq<Snapshot>, start: nat)
    requires OneStatePerRevision(base, records) && Ascending(records)
    requires forall i :: 0 <= i < |records| ==> base.revision <= records[i].revision
    requires start <= |records|
    ensures Greatest(base, records[start..]) == Greatest(base, records)
            <==> (start < |records| || Greatest(base, records).revision == base.revision)
  {
    GreatestIsMaximal(base, records);
    if start < |records| {
      GreatestOfAscending(base, records);
      GreatestOfAscending(base, records[start..]);
    }
  }
}
