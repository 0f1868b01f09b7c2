/**
 * Python dictionaries remember insertion order: assigning to an existing key
 * keeps its position, assigning a new key appends it, and `del` removes the
 * entry.  Every registry of the system is such a dictionary, so it is
 * modelled as a sequence of (key, value) entries.
 */
module OrderedDicts {
  import opened Wrappers

  type ODict<K, V> = seq<(K, V)>

  /** The keys in iteration order (`list(d.keys())`). */
  function Keys<K, V>(d: ODict<K, V>): (ks: seq<K>)
    ensures |ks| == |d|
    ensures forall i :: 0 <= i < |d| ==> ks[i] == d[i].0
  {
    if d == [] then [] else [d[0].0] + Keys(d[1..])
  }

  /** The values in iteration order (`list(d.values())`). */
  function Values<K, V>(d: ODict<K, V>): (vs: seq<V>)
    ensures |vs| == |d|
    ensures forall i :: 0 <= i < |d| ==> vs[i] == d[i].1
  {
    if d == [] then [] else [d[0].1] + Values(d[1..])
  }

  predicate Distinct<K(==)>(ks: seq<K>) {
    forall i, j :: 0 <= i < j < |ks| ==> ks[i] != ks[j]
  }

  /** A dictionary holds each key at most once. */
  predicate Valid<K(==,!new), V>(d: ODict<K, V>) {
    Distinct(Keys(d))
  }

  /** `d.get(k)`: the value of the first entry with key k. */
  function Lookup<K(==,!new), V>(d: ODict<K, V>, k: K): (r: Option<V>)
    ensures r.Some? <==> k in Keys(d)
  {
    if d == [] then None
    else if d[0].0 == k then Some(d[0].1)
    else
      assert Keys(d) == [d[0].0] + Keys(d[1..]);
      Lookup(d[1..], k)
  }

  /** In a valid dictionary, Lookup finds the value stored at a key's entry. */
  lemma {:induction false} LookupAt<K(!new), V>(d: ODict<K, V>, i: nat)
    requires Valid(d) && i < |d|
    ensures Lookup(d, d[i].0) == Some(d[i].1)
  {
    if i == 0 {
    } else {
      assert Keys(d)[0] != Keys(d)[i];
      assert Valid(d[1..]) by {
        forall a, b | 0 <= a < b < |d[1..]| ensures Keys(d[1..])[a] != Keys(d[1..])[b] {
          assert Keys(d)[a + 1] != Keys(d)[b + 1];
        }
      }
      LookupAt(d[1..], i - 1);
    }
  }

  /** An entry put in front of a dictionary is found first. */
  lemma LookupCons<K(!new), V>(e: (K, V), rest: ODict<K, V>)
    ensures Keys([e] + rest) == [e.0] + Keys(rest)
    ensures forall k' :: Lookup([e] + rest, k') == if e.0 == k' then Some(e.1) else Lookup(rest, k')
  {
    assert ([e] + rest)[1..] == rest;
  }

  /** A non-empty dictionary is its first entry followed by the rest. */
  lemma LookupFirst<K(!new), V>(d: ODict<K, V>)
    requires d != []
    ensures Keys(d) == [d[0].0] + Keys(d[1..])
    ensures forall k' :: Lookup(d, k') == if d[0].0 == k' then Some(d[0].1) else Lookup(d[1..], k')
  {
  }

  /** `d[k] = v`: an existing key keeps its position, a new key goes last. */
  function Put<K(==,!new), V>(d: ODict<K, V>, k: K, v: V): (r: ODict<K, V>)
    ensures Lookup(r, k) == Some(v)
    ensures forall k' :: k' != k ==> Lookup(r, k') == Lookup(d, k')
    ensures Keys(r) == if k in Keys(d) then Keys(d) else Keys(d) + [k]
  {
    if d == [] then [(k, v)]
    else if d[0].0 == k then
      PutFront(d, v);
      [(k, v)] + d[1..]
    else
      var rest := Put(d[1..], k, v);
      PutBehind(d, k, v, rest);
      [d[0]] + rest
  }

  /** The case of Put where the key is the first entry's. */
  lemma PutFront<K(!new), V>(d: ODict<K, V>, v: V)
    requires d != []
    ensures Lookup([(d[0].0, v)] + d[1..], d[0].0) == Some(v)
    ensures forall k' :: k' != d[0].0 ==> Lookup([(d[0].0, v)] + d[1..], k') == Lookup(d, k')
    ensures Keys([(d[0].0, v)] + d[1..]) == Keys(d)
  {
    LookupFirst(d);
    LookupCons((d[0].0, v), d[1..]);
  }

  /** The case of Put where the key is further on: the first entry stays in front of the rest's update. */
  lemma PutBehind<K(!new), V>(d: ODict<K, V>, k: K, v: V, rest: ODict<K, V>)
    requires d != [] && d[0].0 != k
    requires Lookup(rest, k) == Some(v)
    requires forall k' :: k' != k ==> Lookup(rest, k') == Lookup(d[1..], k')
    requires Keys(rest) == if k in Keys(d[1..]) then Keys(d[1..]) else Keys(d[1..]) + [k]
    ensures Lookup([d[0]] + rest, k) == Some(v)
    ensures forall k' :: k' != k ==> Lookup([d[0]] + rest, k') == Lookup(d, k')
    ensures Keys([d[0]] + rest) == if k in Keys(d) then Keys(d) else Keys(d) + [k]
  {
    LookupFirst(d);
    LookupCons(d[0], rest);
    KeysBehind(d, k, rest);
  }

  lemma KeysBehind<K(!new), V>(d: ODict<K, V>, k: K, rest: ODict<K, V>)
    requires d != [] && d[0].0 != k
    requires Keys(rest) == if k in Keys(d[1..]) then Keys(d[1..]) else Keys(d[1..]) + [k]
    ensures Keys([d[0]] + rest) == if k in Keys(d) then Keys(d) else Keys(d) + [k]
  {
    assert ([d[0]] + rest)[1..] == rest;
    assert Keys([d[0]] + rest) == [d[0].0] + Keys(rest);
    assert Keys(d) == [d[0].0] + Keys(d[1..]);
    assert k in Keys(d) <==> k in Keys(d[1..]);
    if k !in Keys(d) {
      assert [d[0].0] + (Keys(d[1..]) + [k]) == Keys(d) + [k];
    }
  }

  /** Assigning an existing key replaces its entry where it stands. */
  lemma {:induction false} PutExisting<K(!new), V>(d: ODict<K, V>, i: nat, v: V)
    requires Valid(d) && i < |d|
    ensures Put(d, d[i].0, v) == d[i := (d[i].0, v)]
  {
    if i > 0 {
      assert Keys(d)[0] != Keys(d)[i];
      assert Valid(d[1..]) by {
        forall a, b | 0 <= a < b < |d[1..]| ensures Keys(d[1..])[a] != Keys(d[1..])[b] {
          assert Keys(d)[a + 1] != Keys(d)[b + 1];
        }
      }
      PutExisting(d[1..], i - 1, v);
      assert d[1..][i - 1 := (d[i].0, v)] == d[i := (d[i].0, v)][1..];
    }
  }

  /** Assignment keeps a dictionary free of repeated keys. */
  lemma PutValid<K(!new), V>(d: ODict<K, V>, k: K, v: V)
    requires Valid(d)
    ensures Valid(Put(d, k, v))
  {
    var ks := Keys(Put(d, k, v));
    if k !in Keys(d) {
      assert ks == Keys(d) + [k];
      forall a, b | 0 <= a < b < |ks| ensures ks[a] != ks[b] {
        if b < |d| {
          assert ks[a] == Keys(d)[a] && ks[b] == Keys(d)[b];
        } else {
          assert ks[a] == Keys(d)[a] && ks[b] == k;
        }
      }
    }
  }

  /** Assignment adds no entry other than the one assigned. */
  lemma {:induction false} PutEntries<K(!new), V>(d: ODict<K, V>, k: K, v: V)
    ensures forall e :: e in Put(d, k, v) ==> e in d || e == (k, v)
  {
    if d != [] && d[0].0 != k {
      PutEntries(d[1..], k, v);
      assert Put(d, k, v) == [d[0]] + Put(d[1..], k, v);
    }
  }

  /** Assigning a new key appends its entry. */
  lemma {:induction false} PutNew<K(!new), V>(d: ODict<K, V>, k: K, v: V)
    requires k !in Keys(d)
    ensures Put(d, k, v) == d + [(k, v)]
  {
    if d != [] {
      NotFirst(d, k);
      PutPastFirst(d, k, v);
      PutNew(d[1..], k, v);
      Regroup(d, (k, v));
    }
  }

  lemma Regroup<T>(s: seq<T>, x: T)
    requires s != []
    ensures [s[0]] + (s[1..] + [x]) == s + [x]
  {
  }

  lemma NotFirst<K(!new), V>(d: ODict<K, V>, k: K)
    requires d != [] && k !in Keys(d)
    ensures d[0].0 != k && k !in Keys(d[1..])
  {
    assert Keys(d) == [d[0].0] + Keys(d[1..]);
  }

  lemma PutPastFirst<K(!new), V>(d: ODict<K, V>, k: K, v: V)
    requires d != [] && d[0].0 != k
    ensures Put(d, k, v) == [d[0]] + Put(d[1..], k, v)
  {
  }

  /**
   * `del d[k]`: the entry goes, the others keep their order.  (A dictionary
   * holds a key once; on a sequence holding it more often every entry with
   * the key goes.)
   */
  function Remove<K(==,!new), V>(d: ODict<K, V>, k: K): (r: ODict<K, V>)
    ensures |r| <= |d|
    ensures Lookup(r, k) == None
    ensures forall k' :: k' != k ==> Lookup(r, k') == Lookup(d, k')
    ensures forall e :: e in r ==> e in d && e.0 != k
  {
    if d == [] then []
    else if d[0].0 == k then Remove(d[1..], k)
    else
      var rest := Remove(d[1..], k);
      var r := [d[0]] + rest;
      assert r[0] == d[0] && r[1..] == rest;
      r
  }

  /** Removing a key keeps a dictionary valid. */
  lemma {:induction false} RemoveValid<K(!new), V>(d: ODict<K, V>, k: K)
    requires Valid(d)
    ensures Valid(Remove(d, k)) && k !in Keys(Remove(d, k))
  {
    if d != [] {
      assert Keys(d) == [d[0].0] + Keys(d[1..]);
      assert Valid(d[1..]) by {
        forall a, b | 0 <= a < b < |d[1..]| ensures Keys(d[1..])[a] != Keys(d[1..])[b] {
          assert Keys(d)[a + 1] != Keys(d)[b + 1];
        }
      }
      RemoveValid(d[1..], k);
      if d[0].0 != k {
        var rest := Remove(d[1..], k);
        var r := [d[0]] + rest;
        assert r == Remove(d, k);
        assert d[0].0 !in Keys(d[1..]) by {
          forall j | 0 <= j < |d[1..]| ensures Keys(d[1..])[j] != d[0].0 {
            assert Keys(d)[0] != Keys(d)[j + 1];
          }
        }
        assert d[0].0 !in Keys(rest) by {
          forall j | 0 <= j < |rest| ensures Keys(rest)[j] != d[0].0 {
            assert rest[j] in rest;
            var i :| 0 <= i < |d[1..]| && d[1..][i] == rest[j];
            assert Keys(d[1..])[i] == rest[j].0;
          }
        }
        forall a, b | 0 <= a < b < |r| ensures Keys(r)[a] != Keys(r)[b] {
          if a > 0 {
            assert Keys(r)[a] == Keys(rest)[a - 1] && Keys(r)[b] == Keys(rest)[b - 1];
          } else {
            assert Keys(r)[b] == Keys(rest)[b - 1];
          }
        }
      }
    }
  }

  /** Removing a key the dictionary holds takes exactly one entry away. */
  lemma {:induction false} RemoveShrinks<K(!new), V>(d: ODict<K, V>, k: K)
    requires Valid(d) && k in Keys(d)
    ensures |Remove(d, k)| == |d| - 1
  {
    assert Keys(d) == [d[0].0] + Keys(d[1..]);
    if d[0].0 != k {
      assert Valid(d[1..]) by {
        forall a, b | 0 <= a < b < |d[1..]| ensures Keys(d[1..])[a] != Keys(d[1..])[b] {
          assert Keys(d)[a + 1] != Keys(d)[b + 1];
        }
      }
      RemoveShrinks(d[1..], k);
    } else {
      assert k !in Keys(d[1..]) by {
        forall j | 0 <= j < |d[1..]| ensures Keys(d[1..])[j] != k {
          assert Keys(d)[0] != Keys(d)[j + 1];
        }
      }
      RemoveAbsent(d[1..], k);
    }
  }

  /** Removing a key the dictionary does not hold changes nothing. */
  lemma {:induction false} RemoveAbsent<K(!new), V>(d: ODict<K, V>, k: K)
    requires k !in Keys(d)
    ensures Remove(d, k) == d
  {
    if d != [] {
      assert Keys(d) == [d[0].0] + Keys(d[1..]);
      RemoveAbsent(d[1..], k);
      assert [d[0]] + d[1..] == d;
    }
  }

  /**
   * The dictionary built by assigning the pairs of ps one after another, in
   * order (the body of a `for` loop doing `d[key] = value`).
   */
  function PutAll<K(==,!new), V>(d: ODict<K, V>, ps: seq<(K, V)>): ODict<K, V>
    decreases |ps|
  {
    if ps == [] then d else Put(PutAll(d, ps[..|ps| - 1]), ps[|ps| - 1].0, ps[|ps| - 1].1)
  }

  /** One more assignment of the loop that PutAll describes. */
  lemma PutAllStep<K(!new), V>(d: ODict<K, V>, ps: seq<(K, V)>, i: nat)
    requires i < |ps| && Valid(PutAll(d, ps[..i]))
    ensures PutAll(d, ps[..i + 1]) == Put(PutAll(d, ps[..i]), ps[i].0, ps[i].1)
    ensures Valid(PutAll(d, ps[..i + 1]))
  {
    assert ps[..i + 1][..i] == ps[..i];
    PutValid(PutAll(d, ps[..i]), ps[i].0, ps[i].1);
  }

  /** The value of the last pair in ps with key k. */
  function LastValue<K(==,!new), V>(ps: seq<(K, V)>, k: K): Option<V>
    decreases |ps|
  {
    if ps == [] then None
    else if ps[|ps| - 1].0 == k then Some(ps[|ps| - 1].1)
    else LastValue(ps[..|ps| - 1], k)
  }

  /**
   * After assigning a list of pairs, a key holds the value of its last pair,
   * and keys that no pair mentions keep their earlier value.
   */
  lemma {:induction false} PutAllLookup<K(!new), V>(d: ODict<K, V>, ps: seq<(K, V)>, k: K)
    ensures Lookup(PutAll(d, ps), k) ==
      (if LastValue(ps, k).Some? then LastValue(ps, k) else Lookup(d, k))
    decreases |ps|
  {
    if ps != [] {
      PutAllLookup(d, ps[..|ps| - 1], k);
    }
  }

  /** Assigning a list of pairs keeps the dictionary valid. */
  lemma {:induction false} PutAllValid<K(!new), V>(d: ODict<K, V>, ps: seq<(K, V)>)
    requires Valid(d)
    ensures Valid(PutAll(d, ps))
    decreases |ps|
  {
    if ps != [] {
      PutAllValid(d, ps[..|ps| - 1]);
      PutValid(PutAll(d, ps[..|ps| - 1]), ps[|ps| - 1].0, ps[|ps| - 1].1);
    }
  }

  /** The last pair with a key gives its value, whatever came before it. */
  lemma {:induction false} LastValueAt<K(!new), V>(ps: seq<(K, V)>, i: nat)
    requires i < |ps|
    requires forall j :: i < j < |ps| ==> ps[j].0 != ps[i].0
    ensures LastValue(ps, ps[i].0) == Some(ps[i].1)
    decreases |ps|
  {
    if i < |ps| - 1 {
      LastValueAt(ps[..|ps| - 1], i);
    }
  }

  /** Assigning a list of pairs adds no entry that is not one of them. */
  lemma {:induction false} PutAllEntries<K(!new), V>(d: ODict<K, V>, ps: seq<(K, V)>)
    ensures forall e :: e in PutAll(d, ps) ==> e in d || e in ps
    decreases |ps|
  {
    if ps != [] {
      var init := ps[..|ps| - 1];
      PutAllEntries(d, init);
      PutEntries(PutAll(d, init), ps[|ps| - 1].0, ps[|ps| - 1].1);
      forall e | e in init ensures e in ps {
        var j :| 0 <= j < |init| && init[j] == e;
        assert ps[j] == e;
      }
    }
  }

  /** Every entry the loop from an empty dictionary leaves is one of its assignments. */
  lemma PutAllFrom<K(!new), V>(ps: seq<(K, V)>, j: nat) returns (i: nat)
    requires j < |PutAll([], ps)|
    ensures i < |ps| && ps[i] == PutAll([], ps)[j]
  {
    PutAllEntries([], ps);
    assert PutAll([], ps)[j] in PutAll([], ps);
    i :| 0 <= i < |ps| && ps[i] == PutAll([], ps)[j];
  }

  /** Replacing the value of an entry keeps the keys. */
  lemma KeysKeep<K, V>(d: ODict<K, V>, i: nat, v: V)
    requires i < |d|
    ensures Keys(d[i := (d[i].0, v)]) == Keys(d)
  {
    var d' := d[i := (d[i].0, v)];
    assert forall j :: 0 <= j < |d| ==> Keys(d')[j] == Keys(d)[j];
  }

  /** Assigning a key the value it already holds changes nothing. */
  lemma {:induction false} PutSame<K(!new), V>(d: ODict<K, V>, k: K)
    requires k in Keys(d)
    ensures Put(d, k, Lookup(d, k).value) == d
  {
    if d[0].0 != k {
      LookupFirst(d);
      PutSame(d[1..], k);
      assert Put(d, k, Lookup(d, k).value) == [d[0]] + Put(d[1..], k, Lookup(d[1..], k).value);
    }
  }

  /** Assigning the same key the same value twice is assigning it once. */
  lemma {:induction false} PutTwice<K(!new), V>(d: ODict<K, V>, k: K, v: V)
    ensures Put(Put(d, k, v), k, v) == Put(d, k, v)
  {
    if d != [] && d[0].0 != k {
      PutTwice(d[1..], k, v);
      var rest := Put(d[1..], k, v);
      assert Put(d, k, v) == [d[0]] + rest;
      assert ([d[0]] + rest)[1..] == rest;
    }
  }

  /** A two-entry dictionary with different keys finds each value under its key. */
  lemma LookupPair<K(!new), V>(a: (K, V), b: (K, V))
    requires a.0 != b.0
    ensures Keys([a, b]) == [a.0, b.0]
    ensures Lookup([a, b], a.0) == Some(a.1) && Lookup([a, b], b.0) == Some(b.1)
  {
    LookupCons(a, [b]);
  }
}
