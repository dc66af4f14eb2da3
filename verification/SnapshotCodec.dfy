/** The wire form of a snapshot: two listings sorted by identifier, checked on the way in and out. */
module SnapshotCodec {
  import opened Wrappers
  import opened State
  import opened Ordering

  datatype Wire = Wire(schemaVersion: nat, revision: nat, topics: seq<Topic>, subscriptions: seq<Subscription>)

  datatype CodecError = Invalid | Duplicate(id: string)

  function Ids<T>(rows: seq<T>, id: T -> string): (ids: seq<string>)
    ensures |ids| == |rows| && forall i :: 0 <= i < |rows| ==> ids[i] == id(rows[i])
  {
    seq(|rows|, i requires 0 <= i < |rows| => id(rows[i]))
  }

  const TOPIC_ID := (t: Topic) => t.id
  const SUBSCRIPTION_ID := (x: Subscription) => x.id

  /** The rows are the map's values, each under its own identifier, in ascending order. */
  ghost predicate IsListing<T>(m: map<string, T>, rows: seq<T>, id: T -> string) {
    && Lists(Ids(rows, id), m.Keys)
    && forall i :: 0 <= i < |rows| ==> id(rows[i]) in m && m[id(rows[i])] == rows[i]
  }

  ghost predicate Distinct<T>(rows: seq<T>, id: T -> string) {
    forall i, j :: 0 <= i < j < |rows| ==> id(rows[i]) != id(rows[j])
  }

  /** The rows keyed by identifier; a later row would overwrite an earlier one. */
  function Keyed<T>(rows: seq<T>, id: T -> string): map<string, T> {
    if rows == [] then map[] else Keyed(rows[..|rows| - 1], id)[id(rows[|rows| - 1]) := rows[|rows| - 1]]
  }

  lemma {:induction false} KeyedHolds<T>(rows: seq<T>, id: T -> string)
    ensures forall k :: k in Keyed(rows, id) <==> k in Ids(rows, id)
    ensures Distinct(rows, id) ==> forall i :: 0 <= i < |rows| ==>
              id(rows[i]) in Keyed(rows, id) && Keyed(rows, id)[id(rows[i])] == rows[i]
    decreases |rows|
  {
    if rows != [] {
      var n := |rows| - 1;
      KeyedHolds(rows[..n], id);
      assert Ids(rows, id) == Ids(rows[..n], id) + [id(rows[n])];
      if Distinct(rows, id) {
        forall i | 0 <= i < |rows| ensures id(rows[i]) in Keyed(rows, id) && Keyed(rows, id)[id(rows[i])] == rows[i] {
          if i < n {
            assert rows[..n][i] == rows[i];
          }
        }
      }
    }
  }

  /** Keying a listing gives back the map it lists. */
  lemma KeyedListing<T>(m: map<string, T>, rows: seq<T>, id: T -> string)
    requires IsListing(m, rows, id)
    ensures Distinct(rows, id) && Keyed(rows, id) == m
  {
    forall i, j | 0 <= i < j < |rows| ensures id(rows[i]) != id(rows[j]) {
      assert Below(Ids(rows, id)[i], Ids(rows, id)[j]);
      BelowIsTotal(id(rows[i]), id(rows[j]));
    }
    KeyedHolds(rows, id);
    forall k | k in m ensures k in Keyed(rows, id) && Keyed(rows, id)[k] == m[k] {
      assert k in Ids(rows, id);
      var i :| 0 <= i < |rows| && Ids(rows, id)[i] == k;
      assert id(rows[i]) == k;
    }
  }

  /** Sorted rows list the map they are keyed into. */
  lemma ListingOfKeyed<T>(rows: seq<T>, id: T -> string)
    requires Ascending(Ids(rows, id))
    ensures IsListing(Keyed(rows, id), rows, id)
  {
    forall i, j | 0 <= i < j < |rows| ensures id(rows[i]) != id(rows[j]) {
      assert Below(Ids(rows, id)[i], Ids(rows, id)[j]);
      BelowIsTotal(id(rows[i]), id(rows[j]));
    }
    KeyedHolds(rows, id);
  }

  lemma RowsAreUnique<T>(m: map<string, T>, a: seq<T>, b: seq<T>, id: T -> string)
    requires IsListing(m, a, id) && IsListing(m, b, id)
    ensures a == b
  {
    ListingIsUnique(Ids(a, id), Ids(b, id), m.Keys);
    forall i | 0 <= i < |a| ensures a[i] == b[i] {
      assert Ids(a, id)[i] == Ids(b, id)[i];
    }
  }

  /** `w` is the encoding of `s`. */
  ghost predicate IsWireOf(s: Snapshot, w: Wire) {
    && w.schemaVersion == SCHEMA_VERSION && w.revision == s.revision
    && IsListing(s.topics, w.topics, TOPIC_ID)
    && IsListing(s.subscriptions, w.subscriptions, SUBSCRIPTION_ID)
  }

  ghost predicate IsSorted(w: Wire) {
    Ascending(Ids(w.topics, TOPIC_ID)) && Ascending(Ids(w.subscriptions, SUBSCRIPTION_ID))
  }

  /** What decoding accepts, and as what. */
  ghost function Decoded(r: Reducer, w: Wire): Option<Snapshot> {
    var s := Snapshot(w.schemaVersion, w.revision, Keyed(w.topics, TOPIC_ID), Keyed(w.subscriptions, SUBSCRIPTION_ID));
    if Distinct(w.topics, TOPIC_ID) && Distinct(w.subscriptions, SUBSCRIPTION_ID) && r.ValidSnapshot(s) then Some(s) else None
  }

  method Rows<T>(m: map<string, T>, ghost id: T -> string) returns (rows: seq<T>)
    requires forall k :: k in m ==> id(m[k]) == k
    ensures IsListing(m, rows, id)
  {
    var keys := Sorted(m.Keys);
    rows := [];
    for i := 0 to |keys|
      invariant |rows| == i
      invariant forall j :: 0 <= j < i ==> keys[j] in m && rows[j] == m[keys[j]]
    {
      assert keys[i] in m.Keys;
      rows := rows + [m[keys[i]]];
    }
    assert Ids(rows, id) == keys;
  }

  method Encode(r: Reducer, s: Snapshot) returns (w: Result<Wire, CodecError>)
    ensures w.Ok? <==> r.ValidSnapshot(s)
    ensures w.Ok? ==> IsWireOf(s, w.value)
  {
    if !r.ValidSnapshot(s) {
      return Err(Invalid);
    }
    assert forall id :: id in s.topics ==> r.ValidTopic(id, s.topics[id], s.revision);
    assert forall id :: id in s.subscriptions ==> r.ValidSubscription(id, s.subscriptions[id], s.revision);
    var topics := Rows(s.topics, TOPIC_ID);
    var subscriptions := Rows(s.subscriptions, SUBSCRIPTION_ID);
    return Ok(Wire(SCHEMA_VERSION, s.revision, topics, subscriptions));
  }

  /** The next row's identifier is in the map iff an earlier row has it; if not, keying goes on. */
  lemma FillStep<T>(rows: seq<T>, id: T -> string, i: nat)
    requires i < |rows| && Distinct(rows[..i], id)
    ensures id(rows[i]) in Keyed(rows[..i], id) <==> exists j :: 0 <= j < i && id(rows[j]) == id(rows[i])
    ensures id(rows[i]) !in Keyed(rows[..i], id) ==>
              Distinct(rows[..i + 1], id) && Keyed(rows[..i + 1], id) == Keyed(rows[..i], id)[id(rows[i]) := rows[i]]
  {
    var before, after := rows[..i], rows[..i + 1];
    KeyedHolds(before, id);
    assert after[..i] == before && forall j :: 0 <= j < i ==> before[j] == rows[j] == after[j];
    if id(rows[i]) in Keyed(before, id) {
      var j :| 0 <= j < i && Ids(before, id)[j] == id(rows[i]);
      assert id(rows[j]) == id(rows[i]);
    } else {
      forall j | 0 <= j < i ensures id(rows[j]) != id(rows[i]) {
        assert Ids(before, id)[j] == id(rows[j]);
      }
    }
  }

  /** Fills a map row by row and stops at the first identifier seen twice. */
  method Fill<T>(rows: seq<T>, id: T -> string) returns (m: map<string, T>, twice: Option<string>)
    ensures twice.None? <==> Distinct(rows, id)
    ensures twice.None? ==> m == Keyed(rows, id)
    ensures twice.Some? ==> exists i, j :: 0 <= i < j < |rows| && id(rows[i]) == id(rows[j]) == twice.value
  {
    hide Keyed;
    m, twice := map[], None;
    KeyedNothing(id);
    for i := 0 to |rows|
      invariant Distinct(rows[..i], id) && m == Keyed(rows[..i], id)
    {
      FillStep(rows, id, i);
      var k := id(rows[i]);
      if k in m {
        ghost var j :| 0 <= j < i && id(rows[j]) == k;
        return m, Some(k);
      }
      m := m[k := rows[i]];
    }
    assert rows[..|rows|] == rows;
  }

  lemma KeyedNothing<T>(id: T -> string)
    ensures Keyed([], id) == map[]
  {
  }

  method Decode(r: Reducer, w: Wire) returns (s: Result<Snapshot, CodecError>)
    ensures s.Ok? <==> Decoded(r, w).Some?
    ensures s.Ok? ==> s.value == Decoded(r, w).value
    ensures s.Err? ==> (s.error.Invalid? <==> Distinct(w.topics, TOPIC_ID) && Distinct(w.subscriptions, SUBSCRIPTION_ID))
  {
    var topics, again := Fill(w.topics, TOPIC_ID);
    if again.Some? {
      return Err(Duplicate(again.value));
    }
    var subscriptions, more := Fill(w.subscriptions, SUBSCRIPTION_ID);
    if more.Some? {
      return Err(Duplicate(more.value));
    }
    var snapshot := Snapshot(w.schemaVersion, w.revision, topics, subscriptions);
    if !r.ValidSnapshot(snapshot) {
      return Err(Invalid);
    }
    return Ok(snapshot);
  }

  /** The encoding of a snapshot does not depend on the order its maps were visited in. */
  lemma EncodingIsUnique(s: Snapshot, w: Wire, w': Wire)
    requires IsWireOf(s, w) && IsWireOf(s, w')
    ensures w == w'
  {
    RowsAreUnique(s.topics, w.topics, w'.topics, TOPIC_ID);
    RowsAreUnique(s.subscriptions, w.subscriptions, w'.subscriptions, SUBSCRIPTION_ID);
  }

  /** Decoding the encoding of a valid snapshot gives it back. */
  lemma RoundTrip(r: Reducer, s: Snapshot, w: Wire)
    requires r.ValidSnapshot(s) && IsWireOf(s, w)
    ensures Decoded(r, w) == Some(s)
  {
    KeyedListing(s.topics, w.topics, TOPIC_ID);
    KeyedListing(s.subscriptions, w.subscriptions, SUBSCRIPTION_ID);
  }

  /** An accepted wire is the encoding of what it decodes to iff it is sorted. */
  lemma ReEncodesExactly(r: Reducer, w: Wire)
    requires Decoded(r, w).Some?
    ensures IsWireOf(Decoded(r, w).value, w) <==> IsSorted(w)
  {
    if IsSorted(w) {
      ListingOfKeyed(w.topics, TOPIC_ID);
      ListingOfKeyed(w.subscriptions, SUBSCRIPTION_ID);
    }
  }

  /** Encoding and decoding in sequence, as a stored snapshot is: nothing is lost, nothing invalid gets in. */
  method SaveAndLoad(r: Reducer, s: Snapshot) returns (loaded: Result<Snapshot, CodecError>)
    ensures loaded == if r.ValidSnapshot(s) then Ok(s) else Err(Invalid)
  {
    var w := Encode(r, s);
    if w.Err? {
      return Err(Invalid);
    }
    RoundTrip(r, s, w.value);
    loaded := Decode(r, w.value);
  }
}
