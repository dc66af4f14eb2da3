/**
 How a message travels as a broker record: the identifier and content type in two reserved
 headers, each metadata entry in a prefixed one.  Text stands for its bytes; `lower` is the
 library's lower-casing, about which nothing is assumed.
 */
module RecordCodec {
  import opened Wrappers
  import opened Messages
  import opened Ordering

  const MESSAGE_ID := "websubhub-message-id"
  const CONTENT_TYPE := "content-type"
  const META_PREFIX := "websubhub-meta-"
  const MISSING_ID := "missing_message_id"

  datatype Header = Header(key: string, value: string)

  datatype Record = Record(topic: string, key: string, value: seq<bv8>, headers: seq<Header>)

  datatype RecordError = NoDestination | NoId | StorageInvalid | UnsafeKey(key: string)

  predicate SafeKey(lower: string -> string, key: string) {
    key != "" && lower(key) == key && !(META_PREFIX <= key) && key != MESSAGE_ID && key != CONTENT_TYPE
  }

  /** A message the encoder takes. */
  ghost predicate Publishable(lower: string -> string, destination: string, m: Message) {
    && destination != "" && m.id != "" && m.storageError == ""
    && forall k :: k in m.metadata ==> SafeKey(lower, k)
  }

  function Reserved(m: Message): seq<Header> {
    [Header(MESSAGE_ID, m.id)] + if m.contentType == "" then [] else [Header(CONTENT_TYPE, m.contentType)]
  }

  function Prefixed(metadata: map<string, string>, keys: seq<string>): (hs: seq<Header>)
    requires forall k :: k in keys ==> k in metadata
    ensures |hs| == |keys|
    ensures forall i :: 0 <= i < |keys| ==> hs[i] == Header(META_PREFIX + keys[i], metadata[keys[i]])
  {
    seq(|keys|, i requires 0 <= i < |keys| => Header(META_PREFIX + keys[i], metadata[keys[i]]))
  }

  /** Reserved headers first, then the metadata sorted by key. */
  ghost predicate IsRecordOf(destination: string, m: Message, rec: Record) {
    && rec.topic == destination && rec.key == m.id && rec.value == m.body
    && exists keys :: Lists(keys, m.metadata.Keys) && rec.headers == Reserved(m) + Prefixed(m.metadata, keys)
  }

  method Encode(lower: string -> string, destination: string, m: Message) returns (rec: Result<Record, RecordError>)
    ensures rec.Ok? <==>
            && destination != "" && m.id != "" && m.storageError == ""
            && forall k :: k in m.metadata ==>
                 && k != "" && lower(k) == k && !("websubhub-meta-" <= k)
                 && k != "websubhub-message-id" && k != "content-type"
    ensures rec.Ok? <==> Publishable(lower, destination, m)
    ensures rec.Ok? ==> IsRecordOf(destination, m, rec.value)
    ensures rec.Err? ==> (rec.error.NoDestination? <==> destination == "")
    ensures rec.Err? && destination != "" ==> (rec.error.NoId? <==> m.id == "")
    ensures rec.Err? && destination != "" && m.id != "" ==> (rec.error.StorageInvalid? <==> m.storageError != "")
    ensures rec.Err? && rec.error.UnsafeKey? ==>
              && rec.error.key in m.metadata && !SafeKey(lower, rec.error.key)
              && forall k :: k in m.metadata && Below(k, rec.error.key) ==> SafeKey(lower, k)
  {
    if destination == "" {
      return Err(NoDestination);
    }
    if m.id == "" {
      return Err(NoId);
    }
    if m.storageError != "" {
      return Err(StorageInvalid);
    }
    var headers := Reserved(m);
    var keys := Sorted(m.metadata.Keys);
    for i := 0 to |keys|
      invariant forall k :: k in keys[..i] ==> k in m.metadata && SafeKey(lower, k)
      invariant headers == Reserved(m) + Prefixed(m.metadata, keys[..i])
    {
      var k := keys[i];
      assert k in m.metadata.Keys;
      if !SafeKey(lower, k) {
        EarlierInListing(keys, m.metadata.Keys, i);
        return Err(UnsafeKey(k));
      }
      assert keys[..i + 1] == keys[..i] + [k];
      headers := headers + [Header(META_PREFIX + k, m.metadata[k])];
    }
    assert keys[..|keys|] == keys;
    return Ok(Record(destination, m.id, m.body, headers));
  }

  /** One header read into the message. */
  function Absorb(m: Message, h: Header): Message {
    if h.key == MESSAGE_ID then m.(id := h.value)
    else if h.key == CONTENT_TYPE then m.(contentType := h.value)
    else if META_PREFIX <= h.key then m.(metadata := m.metadata[h.key[|META_PREFIX|..] := h.value])
    else m
  }

  function AbsorbAll(m: Message, headers: seq<Header>): Message {
    if headers == [] then m else Absorb(AbsorbAll(m, headers[..|headers| - 1]), headers[|headers| - 1])
  }

  function Decoded(rec: Record): Message {
    var m := AbsorbAll(Message("", rec.value, "", map[], ""), rec.headers);
    if m.id == "" then m.(storageError := MISSING_ID) else m
  }

  method Decode(rec: Record) returns (m: Message)
    ensures m == Decoded(rec)
  {
    m := Message("", rec.value, "", map[], "");
    for i := 0 to |rec.headers|
      invariant m == AbsorbAll(Message("", rec.value, "", map[], ""), rec.headers[..i])
    {
      assert rec.headers[..i + 1][..i] == rec.headers[..i];
      m := Absorb(m, rec.headers[i]);
    }
    assert rec.headers[..|rec.headers|] == rec.headers;
    if m.id == "" {
      m := m.(storageError := MISSING_ID);
    }
  }

  /** A prefixed header is neither reserved one, and its key comes back whole. */
  lemma AbsorbPrefixed(m: Message, k: string, v: string)
    ensures Absorb(m, Header(META_PREFIX + k, v)) == m.(metadata := m.metadata[k := v])
  {
    var p := META_PREFIX + k;
    assert p[12] == 't' && MESSAGE_ID[12] == 's' && p[0] == 'w' && CONTENT_TYPE[0] == 'c';
    assert p[|META_PREFIX|..] == k;
  }

  lemma {:induction false} AbsorbMetadata(m: Message, metadata: map<string, string>, keys: seq<string>)
    requires m.metadata == map[] && forall k :: k in keys ==> k in metadata
    ensures var n := AbsorbAll(m, Prefixed(metadata, keys));
            && n == m.(metadata := n.metadata)
            && (forall k :: k in n.metadata <==> k in keys)
            && (forall k :: k in keys ==> n.metadata[k] == metadata[k])
    decreases |keys|
  {
    hide Absorb;
    if keys != [] {
      var n := |keys| - 1;
      AbsorbMetadata(m, metadata, keys[..n]);
      assert Prefixed(metadata, keys)[..n] == Prefixed(metadata, keys[..n]);
      assert keys == keys[..n] + [keys[n]];
      AbsorbPrefixed(AbsorbAll(m, Prefixed(metadata, keys[..n])), keys[n], metadata[keys[n]]);
    }
  }

  lemma {:induction false} AbsorbConcat(m: Message, a: seq<Header>, b: seq<Header>)
    ensures AbsorbAll(m, a + b) == AbsorbAll(AbsorbAll(m, a), b)
    decreases |b|
  {
    if b == [] {
      assert a + b == a;
    } else {
      var n := |b| - 1;
      assert (a + b)[..|a| + n] == a + b[..n];
      AbsorbConcat(m, a, b[..n]);
    }
  }

  lemma AbsorbReserved(m: Message, body: seq<bv8>)
    ensures AbsorbAll(Message("", body, "", map[], ""), Reserved(m)) == Message(m.id, body, m.contentType, map[], "")
  {
    var start := Message("", body, "", map[], "");
    var hs := Reserved(m);
    assert hs[..1] == [Header(MESSAGE_ID, m.id)] && hs[..1][..0] == [];
    assert AbsorbAll(start, hs[..1]) == start.(id := m.id);
    if m.contentType == "" {
      assert hs[..1] == hs;
    }
  }

  /** Every message the encoder takes is read back unchanged. */
  lemma RoundTrip(lower: string -> string, destination: string, m: Message, rec: Record)
    requires Publishable(lower, destination, m) && IsRecordOf(destination, m, rec)
    ensures Decoded(rec) == m
  {
    hide AbsorbAll, Prefixed, Reserved;
    var keys :| Lists(keys, m.metadata.Keys) && rec.headers == Reserved(m) + Prefixed(m.metadata, keys);
    var start := Message("", rec.value, "", map[], "");
    AbsorbConcat(start, Reserved(m), Prefixed(m.metadata, keys));
    AbsorbReserved(m, m.body);
    AbsorbMetadata(Message(m.id, m.body, m.contentType, map[], ""), m.metadata, keys);
    assert AbsorbAll(start, rec.headers).metadata == m.metadata;
  }

  /** The header carries a metadata entry. */
  ghost predicate IsEntry(h: Header, metadata: map<string, string>) {
    exists k :: k in metadata && h == Header("websubhub-meta-" + k, metadata[k])
  }

  /** The record, header by header: the identifier, the type if there is one, then one header per metadata entry. */
  lemma RecordExactly(destination: string, m: Message, rec: Record)
    requires IsRecordOf(destination, m, rec)
    ensures rec.topic == destination && rec.key == m.id && rec.value == m.body
    ensures |rec.headers| >= 1 && rec.headers[0] == Header("websubhub-message-id", m.id)
    ensures m.contentType != "" ==> |rec.headers| >= 2 && rec.headers[1] == Header("content-type", m.contentType)
    ensures forall i :: (if m.contentType == "" then 1 else 2) <= i < |rec.headers| ==>
              IsEntry(rec.headers[i], m.metadata)
    ensures forall k :: k in m.metadata ==> Header("websubhub-meta-" + k, m.metadata[k]) in rec.headers
  {
    var keys :| Lists(keys, m.metadata.Keys) && rec.headers == Reserved(m) + Prefixed(m.metadata, keys);
    var hs := Prefixed(m.metadata, keys);
    forall i | |Reserved(m)| <= i < |rec.headers|
      ensures IsEntry(rec.headers[i], m.metadata)
    {
      var k := keys[i - |Reserved(m)|];
      assert k in m.metadata.Keys && rec.headers[i] == hs[i - |Reserved(m)|];
    }
    forall k | k in m.metadata ensures Header("websubhub-meta-" + k, m.metadata[k]) in rec.headers {
      assert k in m.metadata.Keys;
      var i :| 0 <= i < |keys| && keys[i] == k;
      assert rec.headers[|Reserved(m)| + i] == hs[i];
    }
  }

  /** There is one record per message: the order the metadata was visited in does not show. */
  lemma EncodingIsUnique(destination: string, m: Message, a: Record, b: Record)
    requires IsRecordOf(destination, m, a) && IsRecordOf(destination, m, b)
    ensures a == b
  {
    var x :| Lists(x, m.metadata.Keys) && a.headers == Reserved(m) + Prefixed(m.metadata, x);
    var y :| Lists(y, m.metadata.Keys) && b.headers == Reserved(m) + Prefixed(m.metadata, y);
    ListingIsUnique(x, y, m.metadata.Keys);
  }

  // ---------------------------------------------------------------- what a record is read as

  /** One header changes the field it is for, and nothing else. */
  lemma AbsorbExactly(m: Message, h: Header)
    ensures var n := Absorb(m, h);
            && n.body == m.body && n.storageError == m.storageError
            && n.id == (if h.key == "websubhub-message-id" then h.value else m.id)
            && n.contentType == (if h.key == "content-type" then h.value else m.contentType)
            && (forall k :: k in n.metadata <==> k in m.metadata || h.key == "websubhub-meta-" + k)
            && (forall k :: k in n.metadata ==> n.metadata[k] == if h.key == "websubhub-meta-" + k then h.value else m.metadata[k])
    ensures h.key != "websubhub-message-id" && h.key != "content-type" && !("websubhub-meta-" <= h.key) ==> Absorb(m, h) == m
  {
    forall k ensures h.key == META_PREFIX + k <==> META_PREFIX <= h.key && h.key[|META_PREFIX|..] == k {
    }
    if META_PREFIX <= h.key {
      AbsorbPrefixed(m, h.key[|META_PREFIX|..], h.value);
    }
    assert MESSAGE_ID[12] == 's' && META_PREFIX[12] == 't' && CONTENT_TYPE[0] == 'c' && META_PREFIX[0] == 'w';
  }

  /** The last header under a key has this value. */
  ghost predicate LastSays(headers: seq<Header>, key: string, value: string) {
    exists i :: 0 <= i < |headers| && headers[i] == Header(key, value) && NoneAfter(headers, i, key)
  }

  ghost predicate NoneAfter(headers: seq<Header>, i: int, key: string) {
    forall j :: 0 <= j < |headers| && i < j ==> headers[j].key != key
  }

  ghost predicate Absent(headers: seq<Header>, key: string) {
    forall j :: 0 <= j < |headers| ==> headers[j].key != key
  }

  /** What one more header does to what the last one under a key says. */
  lemma LastGrows(headers: seq<Header>, h: Header, key: string, value: string)
    ensures h == Header(key, value) ==> LastSays(headers + [h], key, value)
    ensures h.key != key && LastSays(headers, key, value) ==> LastSays(headers + [h], key, value)
    ensures Absent(headers + [h], key) <==> Absent(headers, key) && h.key != key
  {
    var longer := headers + [h];
    assert longer[|headers|] == h;
    if h == Header(key, value) {
      assert NoneAfter(longer, |headers|, key);
    }
    if h.key != key && LastSays(headers, key, value) {
      var i :| 0 <= i < |headers| && headers[i] == Header(key, value) && NoneAfter(headers, i, key);
      assert longer[i] == Header(key, value) && NoneAfter(longer, i, key);
    }
    if Absent(longer, key) {
      forall j | 0 <= j < |headers| ensures headers[j].key != key { assert longer[j] == headers[j]; }
    }
  }

  /** Everything the headers say, read into an empty message: the last header under a key wins. */
  ghost predicate Reads(headers: seq<Header>, m: Message) {
    && (if Absent(headers, "websubhub-message-id") then m.id == "" else LastSays(headers, "websubhub-message-id", m.id))
    && (if Absent(headers, "content-type") then m.contentType == "" else LastSays(headers, "content-type", m.contentType))
    && (forall k :: k in m.metadata <==> !Absent(headers, "websubhub-meta-" + k))
    && (forall k :: k in m.metadata ==> LastSays(headers, "websubhub-meta-" + k, m.metadata[k]))
  }

  lemma ReadsOneMore(headers: seq<Header>, h: Header, m: Message)
    requires Reads(headers, m)
    ensures Reads(headers + [h], Absorb(m, h))
  {
    hide Absorb, LastSays, Absent;
    var n := Absorb(m, h);
    AbsorbExactly(m, h);
    LastGrows(headers, h, MESSAGE_ID, n.id);
    LastGrows(headers, h, CONTENT_TYPE, n.contentType);
    forall k ensures k in n.metadata <==> !Absent(headers + [h], META_PREFIX + k) {
      LastGrows(headers, h, META_PREFIX + k, "");
    }
    forall k | k in n.metadata ensures LastSays(headers + [h], META_PREFIX + k, n.metadata[k]) {
      LastGrows(headers, h, META_PREFIX + k, n.metadata[k]);
    }
  }

  lemma {:induction false} AbsorbAllReads(body: seq<bv8>, headers: seq<Header>)
    ensures Reads(headers, AbsorbAll(Message("", body, "", map[], ""), headers))
    decreases |headers|
  {
    hide Absorb, Reads;
    if headers == [] {
      NothingRead(Message("", body, "", map[], ""));
    } else {
      var n := |headers| - 1;
      AbsorbAllReads(body, headers[..n]);
      ReadsOneMore(headers[..n], headers[n], AbsorbAll(Message("", body, "", map[], ""), headers[..n]));
      assert headers[..n] + [headers[n]] == headers;
    }
  }

  lemma NothingRead(m: Message)
    requires m.id == "" && m.contentType == "" && m.metadata == map[]
    ensures Reads([], m)
  {
  }

  /** Any record at all, field by field: the body as it is, and for each key the last header under it. */
  lemma DecodedExactly(rec: Record)
    ensures Reads(rec.headers, Decoded(rec)) && Decoded(rec).body == rec.value
    ensures Decoded(rec).storageError == if Decoded(rec).id == "" then "missing_message_id" else ""
  {
    hide Reads;
    var start := Message("", rec.value, "", map[], "");
    AbsorbAllReads(rec.value, rec.headers);
    AbsorbKeeps(start, rec.headers);
    var m := AbsorbAll(start, rec.headers);
    ReadsIgnoresMark(rec.headers, m);
  }

  lemma ReadsIgnoresMark(headers: seq<Header>, m: Message)
    requires Reads(headers, m)
    ensures Reads(headers, m.(storageError := MISSING_ID))
  {
    hide LastSays, Absent;
  }

  /** A header under any other key can stand anywhere; the record is read as if it were not there. */
  lemma ForeignHeaderIsIgnored(rec: Record, before: seq<Header>, h: Header, after: seq<Header>)
    requires h.key != "websubhub-message-id" && h.key != "content-type" && !("websubhub-meta-" <= h.key)
    ensures Decoded(rec.(headers := before + [h] + after)) == Decoded(rec.(headers := before + after))
  {
    hide Absorb;
    var start := Message("", rec.value, "", map[], "");
    AbsorbConcat(start, before + [h], after);
    AbsorbConcat(start, before, after);
    assert (before + [h])[..|before|] == before;
    AbsorbExactly(AbsorbAll(start, before), h);
  }

  /** A record without an identifier is marked, and what is marked can never be published again. */
  lemma MarkedIsUnpublishable(lower: string -> string, destination: string, rec: Record)
    ensures Decoded(rec).storageError != "" <==> Decoded(rec).id == ""
    ensures Decoded(rec).storageError != "" ==> !Publishable(lower, destination, Decoded(rec))
    ensures Decoded(rec).body == rec.value
  {
    AbsorbKeeps(Message("", rec.value, "", map[], ""), rec.headers);
  }

  lemma {:induction false} AbsorbKeeps(m: Message, headers: seq<Header>)
    ensures AbsorbAll(m, headers).body == m.body && AbsorbAll(m, headers).storageError == m.storageError
    decreases |headers|
  {
    if headers != [] {
      AbsorbKeeps(m, headers[..|headers| - 1]);
    }
  }
}
