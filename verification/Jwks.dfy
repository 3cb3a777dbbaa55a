/** The order in which published keys are served (internal/domain/models/identity.go). */
module Jwks {
  import opened Envelopes

  /** Byte order of strings, as Go compares them. */
  predicate Below(a: string, b: string) {
    b != "" && (a == "" || a[0] < b[0] || (a[0] == b[0] && Below(a[1..], b[1..])))
  }

  /** The comparator: dated keys first, the newest first, then by kid, descending. */
  predicate Before(a: PublicKey, b: PublicKey) {
    if a.validFrom.Some? && b.validFrom.Some? && a.validFrom != b.validFrom then a.validFrom.value > b.validFrom.value
    else if a.validFrom.Some? && b.validFrom.None? then true
    else if a.validFrom.None? && b.validFrom.Some? then false
    else Below(b.kid, a.kid)
  }

  predicate Tied(a: PublicKey, b: PublicKey) {
    !Before(a, b) && !Before(b, a)
  }

  // ----- A strict weak order -----

  lemma {:induction false} BelowTotal(a: string, b: string)
    ensures a == b <==> !Below(a, b) && !Below(b, a)
    ensures !(Below(a, b) && Below(b, a))
  {
    if a != "" && b != "" {
      assert a == [a[0]] + a[1..] && b == [b[0]] + b[1..];
      BelowTotal(a[1..], b[1..]);
    }
  }

  lemma {:induction false} BelowTransitive(a: string, b: string, c: string)
    requires Below(a, b) && Below(b, c)
    ensures Below(a, c)
  {
    if a != "" && a[0] == b[0] && b[0] == c[0] {
      BelowTransitive(a[1..], b[1..], c[1..]);
    }
  }

  /** Keys tie exactly when they agree on both things compared. */
  lemma TiedExactly(a: PublicKey, b: PublicKey)
    ensures Tied(a, b) <==> a.validFrom == b.validFrom && a.kid == b.kid
    ensures !(Before(a, b) && Before(b, a)) && !Before(a, a)
  {
    BelowTotal(a.kid, b.kid);
    BelowTotal(a.kid, a.kid);
  }

  lemma StrictWeakOrder(a: PublicKey, b: PublicKey, c: PublicKey)
    ensures !Before(a, a)
    ensures Before(a, b) && Before(b, c) ==> Before(a, c)
    ensures Tied(a, b) && Tied(b, c) ==> Tied(a, c)
    ensures Tied(a, b) ==> (Before(a, c) <==> Before(b, c)) && (Before(c, a) <==> Before(c, b))
  {
    TiedExactly(a, b);
    TiedExactly(b, c);
    TiedExactly(a, c);
    if Below(b.kid, a.kid) && Below(c.kid, b.kid) {
      BelowTransitive(c.kid, b.kid, a.kid);
    }
  }

  lemma NegativelyTransitive(a: PublicKey, b: PublicKey, c: PublicKey)
    requires !Before(a, b) && !Before(b, c)
    ensures !Before(a, c)
  {
    StrictWeakOrder(a, b, c);
    StrictWeakOrder(b, a, c);
  }

  // ----- The stable sort -----

  predicate Sorted(s: seq<PublicKey>) {
    forall i, j :: 0 <= i < j < |s| ==> !Before(s[j], s[i])
  }

  /** The keys of `s` that tie with `k`, in their order. */
  function Ties(s: seq<PublicKey>, k: PublicKey): seq<PublicKey> {
    if s == [] then []
    else Ties(s[..|s| - 1], k) + if Tied(s[|s| - 1], k) then [s[|s| - 1]] else []
  }

  /** Moves `k`, from the end, past the keys it goes before. */
  function Insert(s: seq<PublicKey>, k: PublicKey): (r: seq<PublicKey>)
    ensures |r| == |s| + 1
  {
    if s == [] || !Before(k, s[|s| - 1]) then s + [k] else Insert(s[..|s| - 1], k) + [s[|s| - 1]]
  }

  function StableSort(s: seq<PublicKey>): (r: seq<PublicKey>)
    ensures |r| == |s|
  {
    if s == [] then [] else Insert(StableSort(s[..|s| - 1]), s[|s| - 1])
  }

  lemma {:induction false} InsertFacts(s: seq<PublicKey>, k: PublicKey)
    requires Sorted(s)
    ensures multiset(Insert(s, k)) == multiset(s) + multiset{k} && |Insert(s, k)| == |s| + 1
    ensures Sorted(Insert(s, k))
  {
    if s != [] {
      var n := |s| - 1;
      assert s == s[..n] + [s[n]];
      if Before(k, s[n]) {
        InsertFacts(s[..n], k);
        NothingAfter(s[..n], k, s[n], Insert(s[..n], k));
      } else {
        forall i | 0 <= i < |s| ensures !Before(k, s[i]) {
          StrictWeakOrder(s[n], s[n], s[n]);
          NegativelyTransitive(k, s[n], s[i]);
        }
      }
    }
  }

  /** The last key of a sorted list still goes last once `k`, which goes before it, is in. */
  lemma NothingAfter(s: seq<PublicKey>, k: PublicKey, last: PublicKey, r: seq<PublicKey>)
    requires Sorted(s + [last]) && Before(k, last) && multiset(r) == multiset(s) + multiset{k}
    ensures forall i :: 0 <= i < |r| ==> !Before(last, r[i])
  {
    StrictWeakOrder(k, last, k);
    forall i | 0 <= i < |r| ensures !Before(last, r[i]) {
      assert r[i] in multiset(r);
      if r[i] != k {
        var j :| 0 <= j < |s| && s[j] == r[i];
        assert (s + [last])[j] == r[i] && (s + [last])[|s|] == last;
      }
    }
  }

  lemma {:induction false} SortFacts(s: seq<PublicKey>)
    ensures Sorted(StableSort(s)) && multiset(StableSort(s)) == multiset(s) && |StableSort(s)| == |s|
  {
    if s != [] {
      var n := |s| - 1;
      assert s == s[..n] + [s[n]];
      SortFacts(s[..n]);
      InsertFacts(StableSort(s[..n]), s[n]);
    }
  }

  lemma {:induction false} InsertKeepsTies(s: seq<PublicKey>, k: PublicKey, t: PublicKey)
    requires Sorted(s)
    ensures Ties(Insert(s, k), t) == Ties(s, t) + if Tied(k, t) then [k] else []
  {
    if s == [] || !Before(k, s[|s| - 1]) {
      assert (s + [k])[..|s|] == s;
    } else {
      var n := |s| - 1;
      var r := Insert(s[..n], k);
      assert (r + [s[n]])[..|r|] == r;
      InsertKeepsTies(s[..n], k, t);
      StrictWeakOrder(k, t, s[n]);
    }
  }

  /** Keys that tie keep their input order. */
  lemma {:induction false} SortIsStable(s: seq<PublicKey>, t: PublicKey)
    ensures Ties(StableSort(s), t) == Ties(s, t)
  {
    if s != [] {
      var n := |s| - 1;
      SortIsStable(s[..n], t);
      SortFacts(s[..n]);
      InsertKeepsTies(StableSort(s[..n]), s[n], t);
    }
  }

  lemma TiesLast(s: seq<PublicKey>, k: PublicKey)
    requires s != []
    ensures var n := |s| - 1;
            Ties(s, k) == if Tied(s[n], k) then Ties(s[..n], k) + [s[n]] else Ties(s[..n], k)
  {
  }

  /** In sorted lists with the same keys, the last keys tie. */
  lemma LastsTie(s: seq<PublicKey>, t: seq<PublicKey>)
    requires Sorted(s) && Sorted(t) && multiset(s) == multiset(t) && s != [] && t != []
    ensures Tied(s[|s| - 1], t[|t| - 1])
  {
    var a, b := s[|s| - 1], t[|t| - 1];
    assert a in multiset(t) && b in multiset(s);
    var i :| 0 <= i < |t| && t[i] == a;
    var j :| 0 <= j < |s| && s[j] == b;
    StrictWeakOrder(a, a, a);
  }

  /** The last key of a sorted list is the last of the keys it ties with. */
  lemma LastOfTies(s: seq<PublicKey>, k: PublicKey)
    requires s != [] && Tied(s[|s| - 1], k)
    ensures Ties(s, k) != [] && Ties(s, k)[|Ties(s, k)| - 1] == s[|s| - 1]
  {
    TiesLast(s, k);
  }

  lemma SameLast(s: seq<PublicKey>, t: seq<PublicKey>)
    requires Sorted(s) && Sorted(t) && multiset(s) == multiset(t) && s != [] && t != []
    requires Ties(s, s[|s| - 1]) == Ties(t, s[|s| - 1])
    ensures s[|s| - 1] == t[|t| - 1]
  {
    var a := s[|s| - 1];
    LastsTie(s, t);
    StrictWeakOrder(a, a, a);
    LastOfTies(s, a);
    LastOfTies(t, a);
  }

  lemma TiesOfInit(s: seq<PublicKey>, t: seq<PublicKey>, k: PublicKey)
    requires s != [] && t != [] && s[|s| - 1] == t[|t| - 1] && Ties(s, k) == Ties(t, k)
    ensures Ties(s[..|s| - 1], k) == Ties(t[..|t| - 1], k)
  {
    var a, b := Ties(s[..|s| - 1], k), Ties(t[..|t| - 1], k);
    TiesLast(s, k);
    TiesLast(t, k);
    if Tied(s[|s| - 1], k) {
      assert (a + [s[|s| - 1]])[..|a|] == a && (b + [t[|t| - 1]])[..|b|] == b;
    }
  }

  lemma MultisetOfInit(s: seq<PublicKey>)
    requires s != []
    ensures multiset(s[..|s| - 1]) == multiset(s) - multiset{s[|s| - 1]}
  {
    assert s == s[..|s| - 1] + [s[|s| - 1]];
  }

  /** Two sorted arrangements of the same keys that keep ties in the same order are equal. */
  lemma {:induction false} OneStableOrder(s: seq<PublicKey>, t: seq<PublicKey>)
    requires Sorted(s) && Sorted(t) && multiset(s) == multiset(t)
    requires forall k {:trigger Ties(s, k)} :: Ties(s, k) == Ties(t, k)
    ensures s == t
  {
    SameLength(s, t);
    if s != [] {
      var n := |s| - 1;
      SameLast(s, t);
      MultisetOfInit(s);
      MultisetOfInit(t);
      forall k ensures Ties(s[..n], k) == Ties(t[..n], k) {
        TiesOfInit(s, t, k);
      }
      OneStableOrder(s[..n], t[..n]);
      assert s == s[..n] + [s[n]] && t == t[..n] + [t[n]];
    }
  }

  /** Whatever stable sort is used, its result is this one. */
  lemma StableSortUnique(s: seq<PublicKey>, t: seq<PublicKey>)
    requires Sorted(t) && multiset(t) == multiset(s) && forall k :: Ties(t, k) == Ties(s, k)
    ensures t == StableSort(s)
  {
    SortFacts(s);
    forall k ensures Ties(t, k) == Ties(StableSort(s), k) {
      SortIsStable(s, k);
    }
    OneStableOrder(t, StableSort(s));
  }

  // ----- One result for every input order -----

  predicate TiesAreCopies(s: seq<PublicKey>) {
    forall a, b :: a in s && b in s && Tied(a, b) ==> a == b
  }

  /** A sorted arrangement of keys among which only copies tie is the only one. */
  lemma {:induction false} OneSortedOrder(s: seq<PublicKey>, t: seq<PublicKey>)
    requires Sorted(s) && Sorted(t) && multiset(s) == multiset(t) && TiesAreCopies(s)
    ensures s == t
  {
    SameLength(s, t);
    if s != [] {
      SameHead(s, t);
      MultisetOfTail(s);
      MultisetOfTail(t);
      OneSortedOrder(s[1..], t[1..]);
      assert s == [s[0]] + s[1..] && t == [t[0]] + t[1..];
    }
  }

  lemma MultisetOfTail(s: seq<PublicKey>)
    requires s != []
    ensures multiset(s[1..]) == multiset(s) - multiset{s[0]}
  {
    assert s == [s[0]] + s[1..];
  }

  lemma SameLength(s: seq<PublicKey>, t: seq<PublicKey>)
    requires multiset(s) == multiset(t)
    ensures |s| == |t|
  {
    assert |multiset(s)| == |s| && |multiset(t)| == |t|;
  }

  lemma SameHead(s: seq<PublicKey>, t: seq<PublicKey>)
    requires Sorted(s) && Sorted(t) && multiset(s) == multiset(t) && TiesAreCopies(s) && s != [] && t != []
    ensures s[0] == t[0]
  {
    assert s[0] in multiset(t) && t[0] in multiset(s);
    var i :| 0 <= i < |t| && t[i] == s[0];
    var j :| 0 <= j < |s| && s[j] == t[0];
    if i > 0 && j > 0 {
      assert Tied(s[0], t[0]);
    }
  }

  lemma {:induction false} TiesAppend(a: seq<PublicKey>, b: seq<PublicKey>, k: PublicKey)
    ensures Ties(a + b, k) == Ties(a, k) + Ties(b, k)
    decreases |b|
  {
    if b == [] {
      assert a + b == a;
    } else {
      TiesAppend(a, b[..|b| - 1], k);
      assert (a + b)[..|a| + |b| - 1] == a + b[..|b| - 1];
    }
  }

  lemma TiesFrom(s: seq<PublicKey>, i: nat, k: PublicKey)
    requires i < |s| && Tied(s[i], k)
    ensures Ties(s, k) == Ties(s[..i], k) + [s[i]] + Ties(s[i + 1..], k)
  {
    assert s == s[..i] + [s[i]] + s[i + 1..] && [s[i]][..0] == [];
    TiesAppend(s[..i], [s[i]], k);
    TiesAppend(s[..i] + [s[i]], s[i + 1..], k);
  }

  /** Swapping two different keys that tie changes the result. */
  lemma SwapShows(s: seq<PublicKey>, i: nat, j: nat)
    requires i < j < |s| && Tied(s[i], s[j]) && s[i] != s[j]
    ensures multiset(s[i := s[j]][j := s[i]]) == multiset(s)
    ensures StableSort(s[i := s[j]][j := s[i]]) != StableSort(s)
  {
    var t, k := s[i := s[j]][j := s[i]], s[i];
    StrictWeakOrder(k, k, k);
    TiesFrom(s, i, k);
    TiesFrom(t, i, k);
    assert t[..i] == s[..i];
    assert Ties(s, k)[|Ties(s[..i], k)|] == s[i] && Ties(t, k)[|Ties(s[..i], k)|] == s[j];
    SortIsStable(s, k);
    SortIsStable(t, k);
  }

  /** The served order does not depend on the order in which the keys were loaded exactly when
      only copies of a key tie. */
  lemma InputOrderIrrelevantExactly(s: seq<PublicKey>)
    ensures (forall t :: multiset(t) == multiset(s) ==> StableSort(t) == StableSort(s)) <==> TiesAreCopies(s)
  {
    if TiesAreCopies(s) {
      forall t | multiset(t) == multiset(s) ensures StableSort(t) == StableSort(s) {
        SortFacts(s);
        SortFacts(t);
        assert forall k :: k in StableSort(s) ==> k in multiset(s);
        OneSortedOrder(StableSort(s), StableSort(t));
      }
    } else {
      var a, b :| a in s && b in s && Tied(a, b) && a != b;
      var i :| 0 <= i < |s| && s[i] == a;
      var j :| 0 <= j < |s| && s[j] == b;
      SwapShows(s, if i < j then i else j, if i < j then j else i);
    }
  }

  /** With distinct kids it never depends on it. */
  lemma DistinctKidsTieAsCopies(s: seq<PublicKey>)
    requires forall i, j :: 0 <= i < j < |s| ==> s[i].kid != s[j].kid
    ensures TiesAreCopies(s)
  {
    forall a, b | a in s && b in s && Tied(a, b) ensures a == b {
      TiedExactly(a, b);
    }
  }

  // ----- The code -----

  /** In-place insertion, key by key, which is what the library's stable sort does on up to
      twenty keys. */
  method SortStable(keys: array<PublicKey>)
    modifies keys
    ensures keys[..] == StableSort(old(keys[..]))
  {
    ghost var was := keys[..];
    var i := 0;
    while i < keys.Length
      invariant 0 <= i <= keys.Length
      invariant keys[..i] == StableSort(was[..i])
      invariant forall m :: i <= m < keys.Length ==> keys[m] == was[m]
    {
      SortNext(was, i);
      Sink(keys, i);
      i := i + 1;
    }
    assert was[..i] == was && keys[..i] == keys[..];
  }

  lemma SortNext(s: seq<PublicKey>, i: nat)
    requires i < |s|
    ensures StableSort(s[..i + 1]) == Insert(StableSort(s[..i]), s[i])
  {
    assert s[..i + 1][..i] == s[..i];
  }

  /** Swaps the key at `i` down to its place among the keys before it. */
  method Sink(keys: array<PublicKey>, i: nat)
    requires i < keys.Length
    modifies keys
    ensures keys[..i + 1] == Insert(old(keys[..i]), old(keys[i]))
    ensures forall m :: i < m < keys.Length ==> keys[m] == old(keys[m])
  {
    ghost var s, k := keys[..i], keys[i];
    var j := i;
    while j > 0 && Before(keys[j], keys[j - 1])
      invariant 0 <= j <= i && keys[j] == k
      invariant forall m :: 0 <= m < j ==> keys[m] == s[m]
      invariant forall m :: j < m <= i ==> keys[m] == s[m - 1]
      invariant forall m :: i < m < keys.Length ==> keys[m] == old(keys[m])
      invariant forall m :: j <= m < i ==> Before(k, s[m])
    {
      keys[j], keys[j - 1] := keys[j - 1], keys[j];
      j := j - 1;
    }
    InsertIs(s, k, j, keys[..i + 1]);
  }

  lemma {:induction false} InsertAt(s: seq<PublicKey>, k: PublicKey, j: nat)
    requires j <= |s| && (j == 0 || !Before(k, s[j - 1])) && forall m :: j <= m < |s| ==> Before(k, s[m])
    ensures Insert(s, k) == s[..j] + [k] + s[j..]
  {
    if j == |s| {
      assert s[..j] == s;
    } else {
      var n := |s| - 1;
      InsertAt(s[..n], k, j);
      assert s[..n][..j] == s[..j] && s[..n][j..] + [s[n]] == s[j..];
    }
  }

  lemma InsertIs(s: seq<PublicKey>, k: PublicKey, j: nat, r: seq<PublicKey>)
    requires j <= |s| && (j == 0 || !Before(k, s[j - 1])) && forall m :: j <= m < |s| ==> Before(k, s[m])
    requires |r| == |s| + 1 && r[j] == k
    requires forall m :: 0 <= m < j ==> r[m] == s[m]
    requires forall m :: j < m <= |s| ==> r[m] == s[m - 1]
    ensures r == Insert(s, k)
  {
    InsertAt(s, k, j);
    assert r == s[..j] + [k] + s[j..];
  }

  datatype KeySet = KeySet(keys: seq<string>) | MarshalError

  /** `a` and `b` agree up to place `n`, where `a` ends or has the smaller character. */
  predicate LessAt(a: string, b: string, n: nat) {
    && n <= |a| && n < |b| && (forall m :: 0 <= m < n ==> a[m] == b[m])
    && (n == |a| || a[n] < b[n])
  }

  lemma LessAtNext(a: string, b: string, n: nat)
    requires a != "" && b != "" && a[0] == b[0]
    ensures LessAt(a, b, n + 1) <==> LessAt(a[1..], b[1..], n)
  {
    if LessAt(a[1..], b[1..], n) {
      forall m | 0 <= m < n + 1 ensures a[m] == b[m] {
        assert m > 0 ==> a[1..][m - 1] == b[1..][m - 1];
      }
    }
  }

  lemma {:induction false} BelowExactly(a: string, b: string)
    ensures Below(a, b) <==> exists n :: LessAt(a, b, n)
  {
    if a != "" && b != "" && a[0] == b[0] {
      BelowExactly(a[1..], b[1..]);
      forall n: nat {
        LessAtNext(a, b, n);
      }
      assert !LessAt(a, b, 0);
      assert forall n: nat :: LessAt(a, b, n) ==> n > 0 && LessAt(a[1..], b[1..], n - 1);
    } else if Below(a, b) {
      assert LessAt(a, b, 0);
    }
  }

  /** In what is served, dated keys come before undated ones and newer before older, and among
      keys of one date, or undated ones, the kids never increase. */
  lemma NewestFirst(s: seq<PublicKey>, i: nat, j: nat)
    requires i < j < |s|
    ensures var x, y := StableSort(s)[i], StableSort(s)[j];
            && (x.validFrom.None? ==> y.validFrom.None?)
            && (x.validFrom.Some? && y.validFrom.Some? ==> x.validFrom.value >= y.validFrom.value)
            && (x.validFrom == y.validFrom && x.kid != y.kid ==> exists n :: LessAt(y.kid, x.kid, n))
  {
    SortFacts(s);
    var x, y := StableSort(s)[i], StableSort(s)[j];
    assert !Before(y, x);
    BelowTotal(y.kid, x.kid);
    BelowExactly(y.kid, x.kid);
  }

  lemma SortKeepsMembers(s: seq<PublicKey>)
    ensures forall k :: k in StableSort(s) <==> k in s
  {
    SortFacts(s);
    forall k ensures k in StableSort(s) <==> k in s {
      assert k in StableSort(s) <==> k in multiset(StableSort(s));
      assert k in s <==> k in multiset(s);
    }
  }

  method MarshalAll(keys: array<PublicKey>, marshal: PublicKey -> Option<string>) returns (r: KeySet)
    ensures r.KeySet? <==> forall k :: k in keys[..] ==> marshal(k).Some?
    ensures r.KeySet? ==> |r.keys| == keys.Length
    ensures r.KeySet? ==> forall i :: 0 <= i < |r.keys| ==> Some(r.keys[i]) == marshal(keys[i])
  {
    var out: seq<string> := [];
    for i := 0 to keys.Length
      invariant |out| == i && forall j :: 0 <= j < i ==> Some(out[j]) == marshal(keys[j])
    {
      var b := marshal(keys[i]);
      if b.None? {
        assert keys[i] in keys[..];
        return MarshalError;
      }
      out := out + [b.value];
    }
    r := KeySet(out);
  }

  /** Serves the keys in order, or the error when one of them cannot be marshalled; the
      published list itself is not reordered. */
  method JWKS(publicKeys: array<PublicKey>, marshal: PublicKey -> Option<string>) returns (r: KeySet)
    ensures r.KeySet? <==> forall k :: k in publicKeys[..] ==> marshal(k).Some?
    ensures r.KeySet? ==> |r.keys| == publicKeys.Length
    ensures r.KeySet? ==> forall i :: 0 <= i < |r.keys| ==> Some(r.keys[i]) == marshal(StableSort(publicKeys[..])[i])
    ensures var t := StableSort(publicKeys[..]);
            && multiset(t) == multiset(publicKeys[..])
            && forall i, j :: 0 <= i < j < |t| ==>
                 && (t[i].validFrom.None? ==> t[j].validFrom.None?)
                 && (t[i].validFrom.Some? && t[j].validFrom.Some? ==> t[i].validFrom.value >= t[j].validFrom.value)
                 && (t[i].validFrom == t[j].validFrom && t[i].kid != t[j].kid ==>
                       exists n :: LessAt(t[j].kid, t[i].kid, n))
  {
    var n := publicKeys.Length;
    var keys := new PublicKey[n](i requires 0 <= i < n reads publicKeys => publicKeys[i]);
    assert keys[..] == publicKeys[..];
    SortStable(keys);
    SortKeepsMembers(publicKeys[..]);
    SortFacts(publicKeys[..]);
    forall i: nat, j: nat | i < j < n {
      NewestFirst(publicKeys[..], i, j);
    }
    r := MarshalAll(keys, marshal);
  }
}
