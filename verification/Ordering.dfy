/** The byte order of strings and the one ascending listing of a set of them. */
module Ordering {
  import opened Wrappers

  /** Strictly before in lexicographic order. */
  predicate Below(a: string, b: string)
    decreases |a|
  {
    b != [] && (a == [] || a[0] < b[0] || (a[0] == b[0] && Below(a[1..], b[1..])))
  }

  /** That is: a proper prefix, or the smaller character at the first difference. */
  lemma {:induction false} BelowExactly(a: string, b: string)
    ensures Below(a, b) <==>
            a < b || exists i :: 0 <= i < |a| && i < |b| && a[..i] == b[..i] && a[i] < b[i]
    decreases |a|
  {
    if a != [] && b != [] {
      assert a == [a[0]] + a[1..] && b == [b[0]] + b[1..];
      BelowExactly(a[1..], b[1..]);
      if a[0] == b[0] && Below(a[1..], b[1..]) && !(a[1..] < b[1..]) {
        var i :| 0 <= i < |a[1..]| && i < |b[1..]| && a[1..][..i] == b[1..][..i] && a[1..][i] < b[1..][i];
        assert a[..i + 1] == [a[0]] + a[1..][..i] && b[..i + 1] == [b[0]] + b[1..][..i];
        assert a[i + 1] < b[i + 1];
      }
      if i :| 0 <= i < |a| && i < |b| && a[..i] == b[..i] && a[i] < b[i] {
        if i > 0 {
          assert a[0] == a[..i][0] == b[..i][0] == b[0];
          assert a[1..][..i - 1] == a[..i][1..] && b[1..][..i - 1] == b[..i][1..];
          assert a[1..][i - 1] < b[1..][i - 1];
        }
      }
    }
  }

  lemma {:induction false} BelowIsTransitive(a: string, b: string, c: string)
    requires Below(a, b) && Below(b, c)
    ensures Below(a, c)
    decreases |a|
  {
    if a != [] && a[0] == b[0] == c[0] {
      BelowIsTransitive(a[1..], b[1..], c[1..]);
    }
  }

  lemma {:induction false} BelowIsTotal(a: string, b: string)
    ensures a == b || Below(a, b) || Below(b, a)
    ensures !(Below(a, b) && Below(b, a)) && (a == b ==> !Below(a, b))
    decreases |a|
  {
    if a != [] && b != [] && a[0] == b[0] {
      BelowIsTotal(a[1..], b[1..]);
      assert a == [a[0]] + a[1..] && b == [b[0]] + b[1..];
    }
  }

  ghost predicate Ascending(list: seq<string>) {
    forall i, j :: 0 <= i < j < |list| ==> Below(list[i], list[j])
  }

  /** The keys, each once, in order. */
  ghost predicate Lists(list: seq<string>, keys: set<string>) {
    Ascending(list) && forall k :: k in list <==> k in keys
  }

  /** The first of an ascending listing is the least key, so two listings start alike. */
  lemma SameHead(a: seq<string>, b: seq<string>, keys: set<string>)
    requires Lists(a, keys) && Lists(b, keys) && a != []
    ensures b != [] && a[0] == b[0]
  {
    assert a[0] in keys && a[0] in b;
    assert b[0] in keys && b[0] in a;
    var i :| 0 <= i < |a| && a[i] == b[0];
    var j :| 0 <= j < |b| && b[j] == a[0];
    BelowIsTotal(a[0], b[0]);
  }

  lemma TailLists(a: seq<string>, keys: set<string>)
    requires Lists(a, keys) && a != []
    ensures Lists(a[1..], keys - {a[0]})
  {
    forall k ensures k in a[1..] <==> k in keys - {a[0]} {
      if k in a[1..] {
        var i :| 0 <= i < |a[1..]| && a[1..][i] == k;
        assert Below(a[0], a[i + 1]);
        BelowIsTotal(a[0], k);
      }
    }
  }

  /** A set has only one ascending listing, whatever order it was built in. */
  lemma {:induction false} ListingIsUnique(a: seq<string>, b: seq<string>, keys: set<string>)
    requires Lists(a, keys) && Lists(b, keys)
    ensures a == b
    decreases |a|
  {
    if a != [] {
      SameHead(a, b, keys);
      TailLists(a, keys);
      TailLists(b, keys);
      ListingIsUnique(a[1..], b[1..], keys - {a[0]});
      assert a == [a[0]] + a[1..] && b == [b[0]] + b[1..];
    } else if b != [] {
      SameHead(b, a, keys);
      assert false;
    }
  }

  /** Whatever is below an element of the listing stands before it. */
  lemma EarlierInListing(list: seq<string>, keys: set<string>, i: nat)
    requires Lists(list, keys) && i < |list|
    ensures forall k :: k in keys && Below(k, list[i]) ==> k in list[..i]
  {
    forall k | k in keys && Below(k, list[i]) ensures k in list[..i] {
      var j :| 0 <= j < |list| && list[j] == k;
      BelowIsTotal(k, list[i]);
      assert j < i;
      assert list[..i][j] == k;
    }
  }

  /** Puts a new key at its place. */
  method Insert(list: seq<string>, k: string) returns (longer: seq<string>)
    requires Ascending(list) && k !in list
    ensures Ascending(longer)
    ensures forall x :: x in longer <==> x == k || x in list
  {
    var i := 0;
    while i < |list| && Below(list[i], k)
      invariant 0 <= i <= |list|
      invariant forall j :: 0 <= j < i ==> Below(list[j], k)
    {
      i := i + 1;
    }
    forall j | i <= j < |list| ensures Below(k, list[j]) {
      BelowIsTotal(k, list[i]);
      if i < j {
        BelowIsTransitive(k, list[i], list[j]);
      }
    }
    longer := list[..i] + [k] + list[i..];
    assert list == list[..i] + list[i..];
  }

  /** The ascending listing of a set, whichever order its elements are visited in. */
  method Sorted(keys: set<string>) returns (list: seq<string>)
    ensures Lists(list, keys)
  {
    list := [];
    var rest := keys;
    while rest != {}
      invariant rest <= keys && Lists(list, keys - rest)
      decreases rest
    {
      var k := Pick(rest);
      rest := rest - {k};
      list := Insert(list, k);
    }
  }
}
